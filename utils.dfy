/** The helpers of service/utils.py: picking the group id out of a posted
    entity, framing a stream of rows as a JSON array, and splitting a
    SharePoint-style path into site, document library, path and file name. */
module Utils {
  import opened Wrappers
  import opened Strings
  import opened JsonValues
  import opened Http

  // ---------------------------------------------------------------------------
  // set_group_id

  /** A key names the group id when its text after the final ':' is "id"
      (a bare "id" qualifies). */
  predicate IsIdKey(k: string)
  {
    Last(Split(k, ':')) == "id"
  }

  /** The same test read directly on the key: it is "id" or ends in ":id". */
  lemma IdKeySuffix(k: string)
    ensures IsIdKey(k) <==> k == "id" || (|k| >= 3 && k[|k| - 3..] == ":id")
  {
    var l := Last(Split(k, ':'));
    SplitLast(k, ':');
    assert ':' !in l;
    if |k| >= 3 && k[|k| - 3..] == ":id" {
      assert k[|k| - 1] == 'd' && k[|k| - 2] == 'i' && k[|k| - 3] == ':';
      assert |l| == 2 && l == k[|k| - 2..];
    }
    if l == "id" && k != "id" {
      assert |l| < |k|;
      assert k[|k| - 3..] == [k[|k| - 3]] + l;
    }
  }

  /** The value of the last id key of the entity's items, in iteration order. */
  function LastIdValue(items: seq<(string, Json)>): Option<Json>
  {
    if items == [] then None
    else if IsIdKey(Last(items).0) then Some(Last(items).1)
    else LastIdValue(items[..|items| - 1])
  }

  /** The item at `i` carries an id key and no later item does. */
  predicate LastIdAt(items: seq<(string, Json)>, i: int)
  {
    0 <= i < |items| && IsIdKey(items[i].0)
    && forall j :: i < j < |items| ==> !IsIdKey(items[j].0)
  }

  /** `LastIdValue` picks the value of the last qualifying key. */
  lemma {:induction false} LastIdValueFound(items: seq<(string, Json)>)
    requires LastIdValue(items).Some?
    ensures exists i :: LastIdAt(items, i) && items[i].1 == LastIdValue(items).value
  {
    var n := |items| - 1;
    assert Last(items) == items[n];
    if IsIdKey(items[n].0) {
      assert LastIdAt(items, n);
    } else {
      var init := items[..n];
      LastIdValueFound(init);
      var i :| LastIdAt(init, i) && init[i].1 == LastIdValue(init).value;
      assert forall j :: i <= j < n ==> items[j] == init[j];
      assert LastIdAt(items, i);
    }
  }

  /** `LastIdValue` finds nothing exactly when no key qualifies. */
  lemma {:induction false} LastIdValueNone(items: seq<(string, Json)>)
    ensures LastIdValue(items).None? <==> forall i :: 0 <= i < |items| ==> !IsIdKey(items[i].0)
  {
    if items != [] {
      var n := |items| - 1;
      var init := items[..n];
      LastIdValueNone(init);
      assert Last(items) == items[n];
      assert forall i :: 0 <= i < n ==> items[i] == init[i];
    }
  }

  /** Python's `set_group_id`: walks the entity's items, remembering the value
      of every id key; fails (an unbound `groupid`) when no key qualifies. */
  method SetGroupId(entity: seq<(string, Json)>) returns (r: Result<Json, Error>)
    ensures LastIdValue(entity).Some? ==> r == Success(LastIdValue(entity).value)
    ensures LastIdValue(entity).None? ==> r == Failure(UnboundLocalError("groupid"))
  {
    var groupid: Option<Json> := None;
    for i := 0 to |entity|
      invariant groupid == LastIdValue(entity[..i])
    {
      assert entity[..i + 1][..i] == entity[..i];
      if IsIdKey(entity[i].0) {
        groupid := Some(entity[i].1);
      }
    }
    assert entity[..|entity|] == entity;
    if groupid.None? {
      return Failure(UnboundLocalError("groupid"));
    }
    return Success(groupid.value);
  }

  // ---------------------------------------------------------------------------
  // stream_json

  /** The rows with a "," chunk between neighbours. */
  function Separated(rows: seq<string>): seq<string>
  {
    if |rows| <= 1 then rows else [rows[0], ","] + Separated(rows[1..])
  }

  /** The chunks `stream_json` yields for already serialised rows. */
  function Framed(rows: seq<string>): seq<string>
  {
    ["["] + Separated(rows) + ["]"]
  }

  /** `json.dumps` applied to every row. */
  function Dumped<T>(rows: seq<T>, dumps: T -> string): (out: seq<string>)
    ensures |out| == |rows|
    ensures forall i :: 0 <= i < |rows| ==> out[i] == dumps(rows[i])
  {
    seq(|rows|, i requires 0 <= i < |rows| => dumps(rows[i]))
  }

  /** `"".join(chunks)`. */
  function Concat(chunks: seq<string>): string
  {
    if chunks == [] then "" else chunks[0] + Concat(chunks[1..])
  }

  lemma {:induction false} SeparatedAppend(rows: seq<string>, x: string)
    ensures Separated(rows + [x]) == if rows == [] then [x] else Separated(rows) + [",", x]
    decreases |rows|
  {
    if |rows| == 1 {
      assert rows + [x] == [rows[0], x];
      assert Separated([x]) == [x];
    } else if |rows| > 1 {
      assert (rows + [x])[1..] == rows[1..] + [x];
      SeparatedAppend(rows[1..], x);
    }
  }

  lemma {:induction false} SeparatedLayout(rows: seq<string>)
    ensures |Separated(rows)| == if rows == [] then 0 else 2 * |rows| - 1
    ensures forall i :: 0 <= i < |rows| ==> Separated(rows)[2 * i] == rows[i]
    ensures forall i :: 1 <= i < |rows| ==> Separated(rows)[2 * i - 1] == ","
    decreases |rows|
  {
    if |rows| > 1 {
      SeparatedLayout(rows[1..]);
      var s := Separated(rows);
      assert s == [rows[0], ","] + Separated(rows[1..]);
      forall i | 1 <= i < |rows| ensures s[2 * i] == rows[i] && s[2 * i - 1] == "," {
        assert s[2 * i] == Separated(rows[1..])[2 * (i - 1)];
        if i > 1 {
          assert s[2 * i - 1] == Separated(rows[1..])[2 * (i - 1) - 1];
        }
      }
    }
  }

  /** The stream opens with "[", closes with "]", carries every row in input
      order and puts exactly one "," between neighbouring rows. */
  lemma FramedLayout(rows: seq<string>)
    ensures |Framed(rows)| == if rows == [] then 2 else 2 * |rows| + 1
    ensures Framed(rows)[0] == "[" && Last(Framed(rows)) == "]"
    ensures forall i :: 0 <= i < |rows| ==> Framed(rows)[2 * i + 1] == rows[i]
    ensures forall i :: 1 <= i < |rows| ==> Framed(rows)[2 * i] == ","
  {
    SeparatedLayout(rows);
  }

  lemma {:induction false} ConcatAppend(a: seq<string>, b: seq<string>)
    ensures Concat(a + b) == Concat(a) + Concat(b)
    decreases |a|
  {
    if a == [] {
      assert a + b == b;
    } else {
      assert (a + b)[1..] == a[1..] + b;
      ConcatAppend(a[1..], b);
    }
  }

  /** The joined stream is "[" + the rows joined by "," + "]". */
  lemma {:induction false} FramedJoined(rows: seq<string>)
    ensures Concat(Framed(rows)) == "[" + Join(rows, ',') + "]"
    decreases |rows|
  {
    SeparatedJoined(rows);
    ConcatAppend(["["] + Separated(rows), ["]"]);
    ConcatAppend(["["], Separated(rows));
    assert Concat(["["]) == "[" && Concat(["]"]) == "]";
  }

  lemma {:induction false} SeparatedJoined(rows: seq<string>)
    ensures Concat(Separated(rows)) == Join(rows, ',')
    decreases |rows|
  {
    if |rows| == 1 {
      assert Concat([rows[0]]) == rows[0] + Concat([]);
    } else if |rows| > 1 {
      SeparatedJoined(rows[1..]);
      var rest := Separated(rows[1..]);
      assert ([rows[0], ","] + rest)[1..] == [","] + rest;
      assert ([","] + rest)[1..] == rest;
    }
  }

  /** Python's `stream_json`: yields "[", then each row serialised by `dumps`
      with a "," before every row but the first, then "]". */
  method StreamJson<T>(rows: seq<T>, dumps: T -> string) returns (chunks: seq<string>)
    ensures chunks == Framed(Dumped(rows, dumps))
  {
    var first := true;
    chunks := ["["];
    for i := 0 to |rows|
      invariant first <==> i == 0
      invariant chunks == ["["] + Separated(Dumped(rows[..i], dumps))
    {
      assert Dumped(rows[..i + 1], dumps) == Dumped(rows[..i], dumps) + [dumps(rows[i])];
      SeparatedAppend(Dumped(rows[..i], dumps), dumps(rows[i]));
      if !first {
        chunks := chunks + [","];
      } else {
        first := false;
      }
      chunks := chunks + [dumps(rows[i])];
    }
    assert rows[..|rows|] == rows;
    chunks := chunks + ["]"];
  }

  // ---------------------------------------------------------------------------
  // determine_url_parts

  /** What `determine_url_parts` returns: the site URL, the path inside the
      library, the file name (Python's `False` is `None`) and the document
      library (likewise). */
  datatype UrlParts = UrlParts(
    site: string,
    path: string,
    fileName: Option<string>,
    documentLib: Option<string>)

  /** Which of segments 2, 3 and 4 names the document library: the first one
      holding a ':'. Segments 3 and 4 are read without a length check, so a
      path too short to reach them fails with `IndexError`. */
  function LibrarySegment(parts: seq<string>): (r: Result<Option<nat>, Error>)
    requires |parts| >= 3
    ensures r.Success? && r.value.Some? ==>
      var k := r.value.value;
      && 2 <= k <= 4 && k < |parts| && ':' in parts[k]
      && forall j :: 2 <= j < k ==> ':' !in parts[j]
    ensures r == Success(None) <==>
      |parts| >= 5 && ':' !in parts[2] && ':' !in parts[3] && ':' !in parts[4]
    ensures r == Failure(IndexError) <==>
      || (|parts| == 3 && ':' !in parts[2])
      || (|parts| == 4 && ':' !in parts[2] && ':' !in parts[3])
  {
    if ':' in parts[2] then Success(Some(2))
    else if |parts| < 4 then Failure(IndexError)
    else if ':' in parts[3] then Success(Some(3))
    else if |parts| < 5 then Failure(IndexError)
    else if ':' in parts[4] then Success(Some(4))
    else Success(None)
  }

  /** Python's `determine_url_parts(sharepoint_url, path)`. */
  function DetermineUrlParts(sharepointUrl: string, path: string): (r: Result<UrlParts, Error>)
    ensures var parts := Split(path, '/');
      && (|parts| < 3 <==> r == Failure(InvalidPath(path)))
      && (|parts| >= 3 ==> (r.Failure? <==> LibrarySegment(parts).Failure?))
      && (|parts| >= 3 && r.Failure? ==> r == Failure(IndexError))
      && (r.Success? ==>
            && r.value.site == sharepointUrl + "/" + parts[0] + "/" + parts[1]
            && (r.value.fileName.Some? <==> '.' in Last(parts))
            && (r.value.fileName.Some? ==> r.value.fileName.value == Last(parts)))
  {
    var parts := Split(path, '/');
    if |parts| < 3 then Failure(InvalidPath(path))
    else
      assert parts[..2] == [parts[0]] + [parts[1]];
      JoinAppend([parts[0]], [parts[1]], '/');
      var site := sharepointUrl + "/" + Join(parts[..2], '/');
      var at :- LibrarySegment(parts);
      var lib := if at.Some? then Some(Split(parts[at.value], ':')[1]) else None;
      var rest := if at.Some? then Join(parts[at.value + 1..], '/') else Join(parts[2..], '/');
      var possibleFileName := Last(parts);
      var fileName := if |Split(possibleFileName, '.')| > 1 then Some(possibleFileName) else None;
      Success(UrlParts(site, rest, fileName, lib))
  }

  /** The library, when there is one, is the text between the first and the
      second ':' of the first segment among 2, 3 and 4 that holds a ':', and
      the returned path is the segments after it; otherwise the returned path
      is segments 2 onward. */
  lemma LibraryAndPath(sharepointUrl: string, path: string)
    requires DetermineUrlParts(sharepointUrl, path).Success?
    ensures var parts := Split(path, '/');
      var r := DetermineUrlParts(sharepointUrl, path).value;
      && (r.documentLib.Some? ==>
            exists k :: 2 <= k <= 4 && k < |parts| && ':' in parts[k]
              && (forall j :: 2 <= j < k ==> ':' !in parts[j])
              && r.documentLib.value == Split(parts[k], ':')[1]
              && r.path == Join(parts[k + 1..], '/'))
      && (r.documentLib.None? ==>
            |parts| >= 5 && ':' !in parts[2] && ':' !in parts[3] && ':' !in parts[4]
            && r.path == Join(parts[2..], '/'))
  {
  }

  /** Without a library the site and the returned path put back together give
      the original location. */
  lemma NoLibraryRebuildsLocation(sharepointUrl: string, path: string)
    requires DetermineUrlParts(sharepointUrl, path).Success?
    requires DetermineUrlParts(sharepointUrl, path).value.documentLib.None?
    ensures var r := DetermineUrlParts(sharepointUrl, path).value;
      r.site + "/" + r.path == sharepointUrl + "/" + path
  {
    var parts := Split(path, '/');
    var r := DetermineUrlParts(sharepointUrl, path).value;
    LibraryAndPath(sharepointUrl, path);
    SplitJoin(path, '/');
    RejoinAfterTwo(sharepointUrl, parts);
  }

  /** Two segments joined after a prefix, then the rest, is the prefix and
      the whole join. */
  lemma RejoinAfterTwo(u: string, parts: seq<string>)
    requires |parts| >= 3
    ensures u + "/" + parts[0] + "/" + parts[1] + "/" + Join(parts[2..], '/') == u + "/" + Join(parts, '/')
  {
    JoinFirstTwo(parts);
    Regroup(u, parts[0], parts[1], Join(parts[2..], '/'));
  }

  lemma JoinFirstTwo(parts: seq<string>)
    requires |parts| >= 3
    ensures Join(parts, '/') == parts[0] + "/" + (parts[1] + "/" + Join(parts[2..], '/'))
  {
    assert parts == [parts[0]] + parts[1..] && parts[1..] == [parts[1]] + parts[2..];
    JoinCons(parts[0], parts[1..], '/');
    JoinCons(parts[1], parts[2..], '/');
  }

  lemma Regroup(u: string, a: string, b: string, c: string)
    ensures u + "/" + a + "/" + b + "/" + c == u + "/" + (a + "/" + (b + "/" + c))
  {
  }
}
