/** The records the CI host hands to the executor, and the one it gets back from `config`. */
module Gitlab {
  import opened GoErrors
  import opened GoStd

  /** A CI service dependency as the CI host lists it. */
  datatype JobService = JobService(
    name: string,
    alias: string,
    entrypoint: Option<seq<string>>,
    command: Option<seq<string>>)

  /** The `image` record of the job response file. */
  datatype JobResponseImage = JobResponseImage(
    name: string,
    alias: string,
    command: seq<string>,
    entrypoint: seq<string>)

  /** Driver details the `config` document may carry. */
  datatype DriverInfo = DriverInfo(name: Option<string>, version: Option<string>)

  /** The document the `config` phase prints; an absent field is a nil pointer. */
  datatype ConfigExecOutput = ConfigExecOutput(
    driver: Option<DriverInfo>,
    hostname: Option<string>,
    buildsDir: Option<string>,
    cacheDir: Option<string>,
    buildsDirIsShared: Option<bool>,
    jobEnv: Option<map<string, string>>,
    shell: Option<string>)

  /** The text Error() gives: build errors print their code, every other error its message. */
  function ErrorText(e: Error): (text: string)
    ensures (e.GitlabBuildError? || e.InternalsBuildErrorPtr?) ==> HasPrefix(text, "build error: ")
    ensures (e.GitlabBuildError? || e.InternalsBuildErrorPtr?) && MinInt <= e.code <= MaxInt ==>
      |text| > 13 && Atoi(text[13..]) == Some(e.code)
    ensures e.Other? ==> text == e.msg
  {
    match e
    case Other(msg) => msg
    case InternalsBuildErrorPtr(code) => BuildErrorText(code)
    case GitlabBuildError(code) => BuildErrorText(code)
  }

  /** "build error: " and the code in decimal; the code reads back from the text when it is a Go int. */
  function BuildErrorText(code: int): (text: string)
    ensures HasPrefix(text, "build error: ")
    ensures MinInt <= code <= MaxInt ==> |text| > 13 && Atoi(text[13..]) == Some(code)
  {
    var text := "build error: " + Itoa(code);
    assert text[13..] == Itoa(code);
    if MinInt <= code <= MaxInt then AtoiItoa(code); text else text
  }

  /** The exit code a build error of either type reports can be read back from its text, and the two types print alike. */
  lemma BuildErrorTextCarriesCode(code: int)
    requires MinInt <= code <= MaxInt
    ensures var text := ErrorText(GitlabBuildError(code));
      && |text| > 13 && Atoi(text[13..]) == Some(code)
      && ErrorText(InternalsBuildErrorPtr(code)) == text
  {
    var text := "build error: " + Itoa(code);
    assert text[13..] == Itoa(code);
    AtoiItoa(code);
  }
}
