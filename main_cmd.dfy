/**
 * main: the older entry point, whose `readFile` repeats the flag and extension
 * checks of cmd/file line for line. It shares cmd/file's record and messages.
 */
module MainCmd {
  import opened Wrappers
  import opened FilePath
  import opened FileCmd

  /** `readFile` of main/main.go. */
  function ReadFile(yaml: string, json: string, readAll: string -> Result<seq<bv8>, string>): (r: Result<FileData, string>)
    ensures |yaml| > 0 && |json| > 0 ==> r == Failure(BothFilesError)
    ensures |yaml| > 0 && |json| == 0 && !IsYamlExt(Ext(yaml)) ==> r == Failure(ExpectedYamlError)
    ensures |yaml| == 0 && |json| > 0 && !IsJsonExt(Ext(json)) ==> r == Failure(ExpectedJsonError)
    ensures |yaml| == 0 && |json| == 0 ==> r == Failure(NoFileError)
    ensures r.Success? ==> r.value.isYAML != r.value.isJSON
    ensures r.Success? && r.value.isYAML ==> |json| == 0 && IsYamlExt(Ext(yaml)) && readAll(yaml) == Success(r.value.data)
    ensures r.Success? && r.value.isJSON ==> |yaml| == 0 && IsJsonExt(Ext(json)) && readAll(json) == Success(r.value.data)
    ensures |yaml| > 0 && |json| == 0 && IsYamlExt(Ext(yaml)) ==> (r.Success? <==> readAll(yaml).Success?)
    ensures |yaml| == 0 && |json| > 0 && IsJsonExt(Ext(json)) ==> (r.Success? <==> readAll(json).Success?)
    ensures |yaml| > 0 && |json| == 0 && IsYamlExt(Ext(yaml)) && readAll(yaml).Failure? ==> r == Failure(readAll(yaml).error)
    ensures |yaml| == 0 && |json| > 0 && IsJsonExt(Ext(json)) && readAll(json).Failure? ==> r == Failure(readAll(json).error)
  {
    if |yaml| > 0 && |json| > 0 then Failure(BothFilesError)
    else if |yaml| > 0 then
      if Ext(yaml) != ".yml" && Ext(yaml) != ".yaml" then Failure(ExpectedYamlError)
      else match readAll(yaml)
        case Failure(e) => Failure(e)
        case Success(data) => Success(FileData(data, false, true))
    else if |json| > 0 then
      if Ext(json) != ".json" then Failure(ExpectedJsonError)
      else match readAll(json)
        case Failure(e) => Failure(e)
        case Success(data) => Success(FileData(data, true, false))
    else Failure(NoFileError)
  }

  /** The two copies of `readFile` agree on every input. */
  lemma SameAsFileCmd(yaml: string, json: string, readAll: string -> Result<seq<bv8>, string>)
    ensures ReadFile(yaml, json, readAll) == FileCmd.ReadFile(yaml, json, readAll)
  {
  }
}
