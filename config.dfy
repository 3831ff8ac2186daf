/** The start-up gate: the seven environment settings must all be present before
    the serial port is opened. */
module Config {
  import opened Wrappers

  /** The seven settings as read from the environment, each possibly unset. */
  datatype Environment = Environment(
    lastfmApi: Option<string>,
    lastfmSecret: Option<string>,
    lastfmUserAgent: Option<string>,
    lastfmUsername: Option<string>,
    printerUsb: Option<string>,
    printerBaudrate: Option<string>,
    printerRotation: Option<string>)

  /** The settings once all are known to be set. */
  datatype Settings = Settings(
    lastfmApi: string,
    lastfmSecret: string,
    lastfmUserAgent: string,
    lastfmUsername: string,
    printerUsb: string,
    printerBaudrate: string,
    printerRotation: string)

  /** How start-up ends: the error is logged and nothing more happens, or the serial
      port is constructed on the configured device and baud rate. */
  datatype Startup =
    | MissingEnvironment(message: string)
    | SerialPortOpened(device: string, baudrate: string, settings: Settings)

  /** The message logged when a setting is missing (spelled as in the script). */
  const MissingMessage: string := "Missing environment variabes."

  /** JavaScript truthiness of an environment value: set and not the empty string. */
  predicate IsSet(v: Option<string>)
  {
    v.Some? && v.value != ""
  }

  /** The settings in the order the script tests them. */
  function Values(env: Environment): (vs: seq<Option<string>>)
    ensures |vs| == 7
  {
    [env.lastfmApi, env.lastfmSecret, env.lastfmUserAgent, env.lastfmUsername,
     env.printerUsb, env.printerBaudrate, env.printerRotation]
  }

  /** The top of the script: unless every setting is truthy the error is logged and
      the script returns; otherwise a serial port is opened on PRINTER_USB at
      PRINTER_BAUDRATE, and the settings pass on unchanged. */
  function Boot(env: Environment): (r: Startup)
    ensures r.MissingEnvironment? <==> exists k :: 0 <= k < 7 && !IsSet(Values(env)[k])
    ensures r.MissingEnvironment? ==> r.message == MissingMessage
    ensures r.SerialPortOpened? ==>
              Some(r.device) == env.printerUsb && Some(r.baudrate) == env.printerBaudrate &&
              forall k :: 0 <= k < 7 ==> Values(env)[k] == Some(SettingsValues(r.settings)[k])
  {
    if !IsSet(env.lastfmApi) || !IsSet(env.lastfmSecret) || !IsSet(env.lastfmUserAgent) ||
       !IsSet(env.lastfmUsername) || !IsSet(env.printerUsb) || !IsSet(env.printerBaudrate) ||
       !IsSet(env.printerRotation)
    then
      var vs := Values(env);
      assert vs[0] == env.lastfmApi && vs[1] == env.lastfmSecret && vs[2] == env.lastfmUserAgent &&
             vs[3] == env.lastfmUsername && vs[4] == env.printerUsb && vs[5] == env.printerBaudrate &&
             vs[6] == env.printerRotation;
      MissingEnvironment(MissingMessage)
    else
      var s := Settings(env.lastfmApi.value, env.lastfmSecret.value, env.lastfmUserAgent.value,
                        env.lastfmUsername.value, env.printerUsb.value, env.printerBaudrate.value,
                        env.printerRotation.value);
      SerialPortOpened(s.printerUsb, s.printerBaudrate, s)
  }

  /** The settings of a record, in the same order as Values: it mirrors Values on the
      record that start-up passes on, so `Boot` can state the pass-through position
      by position. */
  function SettingsValues(s: Settings): (vs: seq<string>)
    ensures |vs| == 7
  {
    [s.lastfmApi, s.lastfmSecret, s.lastfmUserAgent, s.lastfmUsername,
     s.printerUsb, s.printerBaudrate, s.printerRotation]
  }
}
