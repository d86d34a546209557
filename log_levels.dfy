/** The severity names records carry in their `level` property. Only the levels
    the formatters and the logger name are modelled; their values are the
    lower-case names. */
module LogLevels {

  datatype LogLevel = Error | Warn | Info | Debug {

    /** The string a record carries for this level. */
    function Name(): (s: string)
      ensures s != [] && '|' !in s
    {
      match this
      case Error => "error"
      case Warn => "warn"
      case Info => "info"
      case Debug => "debug"
    }
  }
}
