/** The logger's settings: a flat record with no behaviour of its own. */
module Configuration {

  /** A label set: keys are unique, each maps to one value. */
  type Labels = map<string, string>

  /**
    `address` is the backend base address, used verbatim as a URL prefix;
    `timeout` (nanoseconds) only configures the HTTP client, which is outside
    the model; `labels` are the defaults attached to every record.
   */
  datatype Config = Config(address: string, timeout: int, labels: Labels)

  /** A logger holds nothing but its configuration. */
  datatype Logger = Logger(config: Config)
}
