/**
 * cmd/file: choosing the redirect-table file from the `-yaml` and `-json`
 * flags, and the in-memory saver. Opening and reading the file are the
 * `readAll` parameter: the file's bytes, or the error `os.Open` or
 * `io.ReadAll` reported for that path.
 */
module FileCmd {
  import opened Wrappers
  import opened FilePath
  import DynamicRedirect

  /** `fileData`: the file's bytes and which format it holds. */
  datatype FileData = FileData(data: seq<bv8>, isJSON: bool, isYAML: bool)

  const BothFilesError := "must provide json or yaml but not both at the same time"
  const ExpectedYamlError := "expected yml or yaml file"
  const ExpectedJsonError := "expected json file"
  const NoFileError := "must provide a file"

  predicate IsYamlExt(ext: string)
  {
    ext == ".yml" || ext == ".yaml"
  }

  predicate IsJsonExt(ext: string)
  {
    ext == ".json"
  }

  /**
   * `readFile`: both flags set, neither set, or the set one with the wrong
   * extension each fail with a fixed message and no data, checked in that
   * order before the file is touched; otherwise the chosen file is read and
   * tagged with its format.
   */
  function ReadFile(yaml: string, json: string, readAll: string -> Result<seq<bv8>, string>): (r: Result<FileData, string>)
    ensures |yaml| > 0 && |json| > 0 ==> r == Failure(BothFilesError)
    ensures |yaml| > 0 && |json| == 0 && !IsYamlExt(Ext(yaml)) ==> r == Failure(ExpectedYamlError)
    ensures |yaml| == 0 && |json| > 0 && !IsJsonExt(Ext(json)) ==> r == Failure(ExpectedJsonError)
    ensures |yaml| == 0 && |json| == 0 ==> r == Failure(NoFileError)
    ensures r.Success? ==> r.value.isYAML != r.value.isJSON
    ensures r.Success? && r.value.isYAML ==> |json| == 0 && IsYamlExt(Ext(yaml)) && readAll(yaml) == Success(r.value.data)
    ensures r.Success? && r.value.isJSON ==> |yaml| == 0 && IsJsonExt(Ext(json)) && readAll(json) == Success(r.value.data)
    ensures |yaml| > 0 && |json| == 0 && IsYamlExt(Ext(yaml)) ==> (r.Success? <==> readAll(yaml).Success?)
    ensures |yaml| == 0 && |json| > 0 && IsJsonExt(Ext(json)) ==> (r.Success? <==> readAll(json).Success?)
    ensures |yaml| > 0 && |json| == 0 && IsYamlExt(Ext(yaml)) && readAll(yaml).Failure? ==> r == Failure(readAll(yaml).error)
    ensures |yaml| == 0 && |json| > 0 && IsJsonExt(Ext(json)) && readAll(json).Failure? ==> r == Failure(readAll(json).error)
  {
    if |yaml| > 0 && |json| > 0 then Failure(BothFilesError)
    else if |yaml| > 0 then
      if Ext(yaml) != ".yml" && Ext(yaml) != ".yaml" then Failure(ExpectedYamlError)
      else match readAll(yaml)
        case Failure(e) => Failure(e)
        case Success(data) => Success(FileData(data, false, true))
    else if |json| > 0 then
      if Ext(json) != ".json" then Failure(ExpectedJsonError)
      else match readAll(json)
        case Failure(e) => Failure(e)
        case Success(data) => Success(FileData(data, true, false))
    else Failure(NoFileError)
  }

  /** The four failing cases of `TestReadFile`, whatever the file system holds. */
  lemma ReadFileTestCases(readAll: string -> Result<seq<bv8>, string>)
    ensures ReadFile("", "", readAll) == Failure(NoFileError)
    ensures ReadFile("paths.yml", "paths.nil", readAll) == Failure(BothFilesError)
    ensures ReadFile("", "paths.yml", readAll) == Failure(ExpectedJsonError)
    ensures ReadFile("paths.json", "", readAll) == Failure(ExpectedYamlError)
  {
    ExtOfSuffix("paths", ".yml");
    assert "paths" + ".yml" == "paths.yml";
    ExtOfSuffix("paths", ".json");
    assert "paths" + ".json" == "paths.json";
  }

  /** The two reading cases of `TestReadFile`: the bytes come back tagged with their format. */
  lemma ReadFileReadsChosenFile(dir: string, readAll: string -> Result<seq<bv8>, string>)
    ensures readAll(dir + "/paths.yml").Success? ==>
            ReadFile(dir + "/paths.yml", "", readAll) == Success(FileData(readAll(dir + "/paths.yml").value, false, true))
    ensures readAll(dir + "/paths.json").Success? ==>
            ReadFile("", dir + "/paths.json", readAll) == Success(FileData(readAll(dir + "/paths.json").value, true, false))
  {
    ExtOfSuffix(dir + "/paths", ".yml");
    assert dir + "/paths" + ".yml" == dir + "/paths.yml";
    ExtOfSuffix(dir + "/paths", ".json");
    assert dir + "/paths" + ".json" == dir + "/paths.json";
  }

  /** `saver`: an in-memory storage port that overwrites unconditionally. */
  class Saver {
    var store: map<string, string>

    constructor (store: map<string, string>)
      ensures this.store == store
    {
      this.store := store;
    }

    /** `Save`: stores `url` under `key`, replacing any earlier value, and never fails. */
    method Save(key: string, url: string) returns (err: Option<DynamicRedirect.Error>)
      modifies this`store
      ensures store == old(store)[key := url]
      ensures err == None
    {
      store := store[key := url];
      err := None;
    }
  }
}
