/** The command-line configuration of the call-center pipeline: option
    lookup in the argument list (given as a parameter) and the user
    configuration built from it. */
module UserConfigHelper {
  import opened Wrappers
  import opened Strings

  const PartialSpeechEndpoint := ".api.cognitive.microsoft.com"
  const Https := "https://"

  /** The pipeline's user configuration. */
  datatype Config = Config(
    subscriptionKey: string, speechEndpoint: string, languageEndpoint: string,
    language: string, locale: string, inputAudioUrl: Option<string>,
    outputFilePath: Option<string>, useStereoAudio: bool)

  /** Every argument lowered. */
  function LowerAll(argv: seq<string>): (r: seq<string>)
    ensures |r| == |argv| && forall i :: 0 <= i < |argv| ==> r[i] == Lower(argv[i])
  {
    seq(|argv|, i requires 0 <= i < |argv| => Lower(argv[i]))
  }

  /** `cmd_option_exists`: the option occurs, ignoring case. */
  predicate CmdOptionExists(argv: seq<string>, option: string)
  {
    Lower(option) in LowerAll(argv)
  }

  lemma CmdOptionExistsIff(argv: seq<string>, option: string)
    ensures CmdOptionExists(argv, option) <==> exists i :: 0 <= i < |argv| && Lower(argv[i]) == Lower(option)
  {
    if CmdOptionExists(argv, option) {
      var i :| 0 <= i < |argv| && LowerAll(argv)[i] == Lower(option);
    }
  }

  /** `argv.index(option)`: the first exact occurrence. */
  function IndexOf(argv: seq<string>, option: string): (i: nat)
    requires option in argv
    ensures i < |argv| && argv[i] == option && option !in argv[..i]
  {
    if argv[0] == option then 0
    else
      var i := IndexOf(argv[1..], option);
      assert argv[1..][..i] == argv[1..i + 1];
      1 + i
  }

  /** `get_cmd_option`: the argument after the first exact occurrence, None
      when the option is missing or is the last argument; an option present
      only in another case passes the case-blind test and then fails the
      exact search with ValueError. */
  function GetCmdOption(argv: seq<string>, option: string): (r: Result<Option<string>>)
    ensures r.Err? <==> CmdOptionExists(argv, option) && option !in argv
    ensures !CmdOptionExists(argv, option) ==> r == Ok(None)
    ensures option in argv ==>
      var i := IndexOf(argv, option);
      r == Ok(if i < |argv| - 1 then Some(argv[i + 1]) else None)
  {
    if CmdOptionExists(argv, option) then
      if option in argv then
        var i := IndexOf(argv, option);
        Ok(if i < |argv| - 1 then Some(argv[i + 1]) else None)
      else Err("ValueError")
    else Ok(None)
  }

  /** An option written exactly and followed by a value yields that value,
      whatever comes before or after. */
  lemma GetCmdOptionValue(before: seq<string>, option: string, value: string, after: seq<string>)
    requires option !in before
    ensures GetCmdOption(before + [option, value] + after, option) == Ok(Some(value))
  {
    var argv := before + [option, value] + after;
    assert argv[|before|] == option;
    assert argv[..|before|] == before;
    assert IndexOf(argv, option) == |before|;
  }

  /** A required option: ValueError propagates and absence is a
      RuntimeError. */
  function Required(argv: seq<string>, option: string): (r: Result<string>)
    ensures r.Ok? <==> GetCmdOption(argv, option).Ok? && GetCmdOption(argv, option).value.Some?
  {
    var v :- GetCmdOption(argv, option);
    if v.None? then Err("RuntimeError") else Ok(v.value)
  }

  /** An optional option with a default. */
  function Defaulted(argv: seq<string>, option: string, default: string): Result<string>
  {
    var v :- GetCmdOption(argv, option);
    Ok(v.GetOr(default))
  }

  /** `user_config_from_args`: the key, the region, the language endpoint
      and the input are required, checked in that order; the language
      defaults to `en` and the locale to `en-US`; the speech endpoint is the
      region followed by the fixed host suffix; every `https://` is removed
      from the language endpoint; stereo is whether `--stereo` occurs. */
  function UserConfigFromArgs(argv: seq<string>): (r: Result<Config>)
  {
    var key :- Required(argv, "--key");
    var region :- Required(argv, "--speechRegion");
    var languageEndpoint :- Required(argv, "--languageEndpoint");
    var language :- Defaulted(argv, "--language", "en");
    var locale :- Defaulted(argv, "--locale", "en-US");
    var input :- Required(argv, "--input");
    var output :- GetCmdOption(argv, "--output");
    Ok(Config(key, region + PartialSpeechEndpoint, ReplaceAll(languageEndpoint, Https, ""),
              language, locale, Some(input), output, CmdOptionExists(argv, "--stereo")))
  }

  /** A missing required option fails, and the first missing one in the
      order key, region, language endpoint decides; a missing input is
      reported once the language and locale options have been read. */
  lemma UserConfigRequiresAll(argv: seq<string>)
    ensures UserConfigFromArgs(argv).Ok? ==>
      Required(argv, "--key").Ok? && Required(argv, "--speechRegion").Ok? &&
      Required(argv, "--languageEndpoint").Ok? && Required(argv, "--input").Ok?
    ensures Required(argv, "--key").Err? ==> UserConfigFromArgs(argv) == Err(Required(argv, "--key").error)
    ensures Required(argv, "--key").Ok? && Required(argv, "--speechRegion").Err? ==>
      UserConfigFromArgs(argv) == Err(Required(argv, "--speechRegion").error)
    ensures (Required(argv, "--key").Ok? && Required(argv, "--speechRegion").Ok? &&
             Required(argv, "--languageEndpoint").Err?) ==>
      UserConfigFromArgs(argv) == Err(Required(argv, "--languageEndpoint").error)
    ensures (Required(argv, "--key").Ok? && Required(argv, "--speechRegion").Ok? &&
             Required(argv, "--languageEndpoint").Ok? && Defaulted(argv, "--language", "en").Ok? &&
             Defaulted(argv, "--locale", "en-US").Ok? && Required(argv, "--input").Err?) ==>
      UserConfigFromArgs(argv) == Err(Required(argv, "--input").error)
  {
  }

  /** A configuration read from the arguments: the speech endpoint is
      built from the region, the input is always given, the language and
      locale fall back to their defaults. */
  lemma UserConfigShape(argv: seq<string>)
    requires UserConfigFromArgs(argv).Ok?
    ensures var c := UserConfigFromArgs(argv).value;
      c.speechEndpoint == Required(argv, "--speechRegion").value + PartialSpeechEndpoint &&
      c.inputAudioUrl == Some(Required(argv, "--input").value) &&
      (!CmdOptionExists(argv, "--language") ==> c.language == "en") &&
      (!CmdOptionExists(argv, "--locale") ==> c.locale == "en-US") &&
      c.useStereoAudio == CmdOptionExists(argv, "--stereo")
  {
  }
}
