/**
 * The static resolver of handler.go: a table built once from decoded
 * `(path, url)` records, and the handler that redirects table hits.
 */
module StaticRedirect {
  import opened Wrappers
  import opened GoStrings
  import opened Http

  /** `uRLMapper`: one decoded YAML or JSON record. */
  datatype PathMapping = PathMapping(path: string, url: string)

  const RepeatedPathError := "repeated path"
  /** Characters `MapHandler` strips from the end of a request path. */
  const PathCutset := "/ "

  ghost predicate DistinctPaths(mappers: seq<PathMapping>)
  {
    forall i, j :: 0 <= i < j < |mappers| ==> mappers[i].path != mappers[j].path
  }

  /** `table` has exactly the records' paths as keys, each mapped to its record's URL. */
  ghost predicate IsTableOf(table: map<string, string>, mappers: seq<PathMapping>)
  {
    && table.Keys == (set i | 0 <= i < |mappers| :: mappers[i].path)
    && forall i :: 0 <= i < |mappers| ==> mappers[i].path in table && table[mappers[i].path] == mappers[i].url
  }

  /**
   * `buildMap`: inserts the records in order and gives up, with no table, at the
   * first path it has already seen.
   */
  method BuildMap(mappers: seq<PathMapping>) returns (r: Result<map<string, string>, string>)
    ensures r.Failure? <==> !DistinctPaths(mappers)
    ensures r.Failure? ==> r.error == RepeatedPathError
    ensures r.Success? ==> IsTableOf(r.value, mappers)
  {
    var mapOutput: map<string, string> := map[];
    for n := 0 to |mappers|
      invariant DistinctPaths(mappers[..n])
      invariant IsTableOf(mapOutput, mappers[..n])
    {
      var mapper := mappers[n];
      if mapper.path in mapOutput {
        var i :| 0 <= i < n && mappers[..n][i].path == mapper.path;
        assert mappers[i].path == mappers[n].path;
        return Failure(RepeatedPathError);
      }
      mapOutput := mapOutput[mapper.path := mapper.url];
      assert mappers[..n + 1] == mappers[..n] + [mapper];
    }
    assert mappers[..|mappers|] == mappers;
    return Success(mapOutput);
  }

  /**
   * `YAMLHandler`, given what `yaml.Unmarshal` produced: a decoding error and a
   * repeated path both leave no handler; otherwise the handler is `MapHandler`
   * over the returned table.
   */
  method YAMLHandler(decoded: Result<seq<PathMapping>, string>) returns (h: Result<map<string, string>, string>)
    ensures decoded.Failure? ==> h == Failure(decoded.error)
    ensures decoded.Success? ==> (h.Failure? <==> !DistinctPaths(decoded.value))
    ensures decoded.Success? && h.Failure? ==> h.error == RepeatedPathError
    ensures h.Success? ==> decoded.Success? && IsTableOf(h.value, decoded.value)
  {
    if decoded.Failure? {
      return Failure(decoded.error);
    }
    h := BuildMap(decoded.value);
  }

  /** `JSONHandler`, given what `json.Unmarshal` produced; otherwise as `YAMLHandler`. */
  method JSONHandler(decoded: Result<seq<PathMapping>, string>) returns (h: Result<map<string, string>, string>)
    ensures decoded.Failure? ==> h == Failure(decoded.error)
    ensures decoded.Success? ==> (h.Failure? <==> !DistinctPaths(decoded.value))
    ensures decoded.Success? && h.Failure? ==> h.error == RepeatedPathError
    ensures h.Success? ==> decoded.Success? && IsTableOf(h.value, decoded.value)
  {
    if decoded.Failure? {
      return Failure(decoded.error);
    }
    h := BuildMap(decoded.value);
  }

  /**
   * `key` is the request path with its trailing '/' and ' ' characters removed:
   * `path` is `key` followed only by such characters, and `key` does not end in one.
   */
  ghost predicate NormalizesTo(path: string, key: string)
  {
    PaddedBy(path, key, PathCutset) && (key == [] || key[|key| - 1] !in PathCutset)
  }

  /**
   * `MapHandler(pathsToUrls, fallback)` applied to one request: only GET is
   * served, and it redirects when the normalized path is in the table and
   * otherwise hands the unchanged request to the fallback.
   */
  function MapHandler(pathsToUrls: map<string, string>, req: Request): (o: Outcome)
    ensures req.verb != MethodGet ==> o == MethodNotAllowed
    ensures req.verb == MethodGet ==>
      forall key :: NormalizesTo(req.path, key) ==>
        o == if key in pathsToUrls then Redirect(pathsToUrls[key]) else Fallback(req)
  {
    if req.verb != MethodGet then MethodNotAllowed
    else
      var key := TrimRight(req.path, PathCutset);
      assert forall k :: NormalizesTo(req.path, k) ==> k == key by {
        forall k | NormalizesTo(req.path, k) ensures k == key {
          TrimRightUnique(req.path, PathCutset, k);
        }
      }
      if key in pathsToUrls then Redirect(pathsToUrls[key]) else Fallback(req)
  }

  /** Every path normalizes to its right-trimmed form. */
  lemma NormalizationExists(path: string)
    ensures NormalizesTo(path, TrimRight(path, PathCutset))
  {
  }

  /**
   * Trailing '/' and ' ' characters do not change where a GET is sent:
   * `"/urlshort-final/  "` is served like `"/urlshort-final"`.
   */
  lemma {:induction false} TrailingPaddingIgnored(table: map<string, string>, path: string, pad: string, form: map<string, string>)
    requires forall i :: 0 <= i < |pad| ==> pad[i] in PathCutset
    ensures var padded := MapHandler(table, Request(MethodGet, path + pad, form));
            var plain := MapHandler(table, Request(MethodGet, path, form));
            (padded.Redirect? <==> plain.Redirect?) && (padded.Redirect? ==> padded == plain)
  {
    TrimRightIgnoresPadding(path, pad, PathCutset);
    NormalizationExists(path);
    NormalizationExists(path + pad);
  }

  /**
   * For records with distinct paths, a GET of each record's path (whose last
   * character is not '/' or ' ') redirects to that record's URL.
   */
  lemma StaticResolution(mappers: seq<PathMapping>, table: map<string, string>, i: nat, pad: string, form: map<string, string>)
    requires IsTableOf(table, mappers) && i < |mappers|
    requires mappers[i].path == [] || mappers[i].path[|mappers[i].path| - 1] !in PathCutset
    requires forall k :: 0 <= k < |pad| ==> pad[k] in PathCutset
    ensures MapHandler(table, Request(MethodGet, mappers[i].path + pad, form)) == Redirect(mappers[i].url)
  {
    var p := mappers[i].path;
    assert NormalizesTo(p + pad, p) by {
      assert (p + pad)[..|p|] == p;
    }
  }

  /** A table path ending in '/' or ' ' is never the key of any request. */
  lemma PaddedKeyUnreachable(path: string, key: string)
    requires key != [] && key[|key| - 1] in PathCutset
    ensures !NormalizesTo(path, key)
  {
  }

  /** The table of the handler tests. */
  const TestTable: map<string, string> := map[
    "/urlshort" := "https://github.com/gophercises/urlshort",
    "/urlshort-final" := "https://github.com/gophercises/urlshort/tree/solution"]

  /**
   * The handler tests: a mapped path and the same path with trailing "/  " get
   * a 301, an unmapped path reaches the fallback, a POST gets a 405.
   */
  lemma MapHandlerTestCases()
    ensures MapHandler(TestTable, Request(MethodGet, "/urlshort", map[])) == Redirect("https://github.com/gophercises/urlshort")
    ensures MapHandler(TestTable, Request(MethodGet, "/urlshort-final/  ", map[]))
         == Redirect("https://github.com/gophercises/urlshort/tree/solution")
    ensures MapHandler(TestTable, Request(MethodGet, "/random-path", map[])) == Fallback(Request(MethodGet, "/random-path", map[]))
    ensures Status(MapHandler(TestTable, Request(MethodPost, "/urlshort", map[]))) == Some(StatusMethodNotAllowed)
  {
    assert NormalizesTo("/urlshort", "/urlshort");
    assert NormalizesTo("/urlshort-final/  ", "/urlshort-final") by {
      assert "/urlshort-final/  "[..|"/urlshort-final"|] == "/urlshort-final";
    }
    assert NormalizesTo("/random-path", "/random-path");
  }

  /** The status code the handler tests check for the two mapped paths: 301. */
  lemma MapHandlerTestStatuses()
    ensures Status(MapHandler(TestTable, Request(MethodGet, "/urlshort", map[]))) == Some(StatusMovedPermanently)
    ensures Status(MapHandler(TestTable, Request(MethodGet, "/urlshort-final/  ", map[]))) == Some(StatusMovedPermanently)
  {
    MapHandlerTestCases();
  }
}
