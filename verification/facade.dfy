/** The caller-facing facade: format, send, and turn any failure into a diagnostic line. */
module Facade {
  import opened Wrappers
  import opened Configuration
  import opened Formatter
  import opened PayloadBuilder
  import opened Transport

  /**
    One Print call. No failure of the pipeline reaches the caller: the result
    is the text written to standard output, which is present exactly when
    sending failed.
   */
  method Print(logger: Logger, args: seq<Arg>, now: nat,
               marshal: Payload -> Result<string, string>, exchange: Request -> Exchange)
    returns (diagnostic: Option<string>)
    ensures var r := Send(logger.config, SpaceJoin(DropLeadingEmpty(Texts(args))), Some(MergeLabels(args)),
                          now, marshal, exchange).result;
      && (r.Ok? <==> diagnostic.None?)
      && (r.Err? ==> diagnostic == Some(ErrorText(r.error) + "\n"))
  {
    var line, labels := Format(args);
    MergeLabelsLastWriterWins(args);
    LastWriterWinsUnique(args, labels, MergeLabels(args));
    var delivery := Send(logger.config, line, Some(labels), now, marshal, exchange);
    if delivery.result.Err? {
      diagnostic := Some(ErrorText(delivery.result.error) + "\n");
    } else {
      diagnostic := None;
    }
  }
}
