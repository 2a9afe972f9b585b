/** The depth-first walk of `get_drive_path_nested_children` over a drive
    folder. The listings the walk receives are given as a finite tree: each
    folder entry carries the listing its own recursive walk would receive. */
module TreeWalk {
  import opened Wrappers
  import opened JsonValues

  /** A drive item as a dict. */
  type Record = map<string, Json>

  /** One entry of a listing: a file, a folder (its name as the path text
      and its own listing), or an entry whose processing raises (a value that
      is not a dict, a folder without a name). */
  datatype Entry =
    | File(fields: Record)
    | Folder(fields: Record, name: string, contents: Listing)
    | Broken(reason: string)

  /** What the children listing of a folder delivers: nothing when the drive
      could not be resolved, otherwise its entries in page order and the
      exception, if any, that ended the listing after them. */
  datatype Listing =
    | NoDrive
    | Listed(entries: seq<Entry>, fault: Option<string>)

  /** Sets `source_path` and copies `id` into `_id` (Python's `None` when
      absent); nothing else changes. */
  function Tag(r: Record, path: string): (t: Record)
    ensures t.Keys == r.Keys + {"source_path", "_id"}
    ensures t["source_path"] == JStr(path) && t["_id"] == GetOr(r, "id")
    ensures forall k :: k in r && k != "source_path" && k != "_id" ==> t[k] == r[k]
  {
    r["source_path" := JStr(path)]["_id" := GetOr(r, "id")]
  }

  /** Tagging again overwrites the earlier tag and nothing else. */
  lemma TagTwice(r: Record, p: string, q: string)
    ensures Tag(Tag(r, p), q) == Tag(r, q)
  {
    assert GetOr(Tag(r, p), "id") == GetOr(r, "id");
  }

  /** The record yielded for an exception: `{"error": str(e)}`. */
  function ErrorRecord(msg: string): Record
  {
    map["error" := JStr(msg)]
  }

  function Retag(rs: seq<Record>, path: string): (out: seq<Record>)
    ensures |out| == |rs| && forall i :: 0 <= i < |rs| ==> out[i] == Tag(rs[i], path)
  {
    seq(|rs|, i requires 0 <= i < |rs| => Tag(rs[i], path))
  }

  // ---------------------------------------------------------------------------
  // The walk as written

  /** `get_drive_path_nested_children(path, ...)`: files are tagged with
      `path`; everything a folder's own walk yields is tagged again with that
      folder's path; an exception ends this level's walk with one error
      record. */
  function NestedChildren(path: string, l: Listing): seq<Record>
    decreases l, 1
  {
    if l.NoDrive? then [] else WalkEntries(path, l, 0)
  }

  function WalkEntries(path: string, l: Listing, i: nat): seq<Record>
    requires l.Listed? && i <= |l.entries|
    decreases l, 0, |l.entries| - i
  {
    if i == |l.entries| then
      if l.fault.Some? then [ErrorRecord(l.fault.value)] else []
    else
      match l.entries[i]
      case Broken(e) => [ErrorRecord(e)]
      case File(f) => [Tag(f, path)] + WalkEntries(path, l, i + 1)
      case Folder(_, name, sub) =>
        var inner := path + "/" + name;
        Retag(NestedChildren(inner, sub), inner) + WalkEntries(path, l, i + 1)
  }

  // ---------------------------------------------------------------------------
  // The walk with each record tagged once, where it is found

  /** The walk that tags every file with the path of the folder holding it:
      a folder's walk is passed on untouched. */
  function NestedChildrenFixed(path: string, l: Listing): seq<Record>
    decreases l, 1
  {
    if l.NoDrive? then [] else WalkEntriesFixed(path, l, 0)
  }

  function WalkEntriesFixed(path: string, l: Listing, i: nat): seq<Record>
    requires l.Listed? && i <= |l.entries|
    decreases l, 0, |l.entries| - i
  {
    if i == |l.entries| then
      if l.fault.Some? then [ErrorRecord(l.fault.value)] else []
    else
      match l.entries[i]
      case Broken(e) => [ErrorRecord(e)]
      case File(f) => [Tag(f, path)] + WalkEntriesFixed(path, l, i + 1)
      case Folder(_, name, sub) =>
        NestedChildrenFixed(path + "/" + name, sub) + WalkEntriesFixed(path, l, i + 1)
  }

  // ---------------------------------------------------------------------------
  // Reference: what the walk meets, and where

  /** A file met by the walk, or an exception that ended a folder's walk,
      with the trail of folder names leading to it from the walk's start. */
  datatype Emit = Leaf(fields: Record, trail: seq<string>) | Fault(reason: string, trail: seq<string>)

  function Under(name: string, es: seq<Emit>): (out: seq<Emit>)
    ensures |out| == |es|
    ensures forall i :: 0 <= i < |es| ==> out[i] == es[i].(trail := [name] + es[i].trail)
  {
    seq(|es|, i requires 0 <= i < |es| => es[i].(trail := [name] + es[i].trail))
  }

  /** The depth-first sequence of files and exceptions in a listing tree. */
  function Emitted(l: Listing): seq<Emit>
    decreases l, 1
  {
    if l.NoDrive? then [] else EmitEntries(l, 0)
  }

  function EmitEntries(l: Listing, i: nat): seq<Emit>
    requires l.Listed? && i <= |l.entries|
    decreases l, 0, |l.entries| - i
  {
    if i == |l.entries| then
      if l.fault.Some? then [Fault(l.fault.value, [])] else []
    else
      match l.entries[i]
      case Broken(e) => [Fault(e, [])]
      case File(f) => [Leaf(f, [])] + EmitEntries(l, i + 1)
      case Folder(_, name, sub) => Under(name, Emitted(sub)) + EmitEntries(l, i + 1)
  }

  /** The path of the folder a trail leads to. */
  function TruePath(path: string, trail: seq<string>): string
    decreases |trail|
  {
    if trail == [] then path else TruePath(path + "/" + trail[0], trail[1..])
  }

  /** The record the walk as written yields for what it met: the first-level
      folder's path for anything below the starting folder, and an untagged
      error record only for an exception of the starting folder itself. */
  function AsWritten(path: string, e: Emit): Record
  {
    var top := if e.trail == [] then path else path + "/" + e.trail[0];
    match e
    case Leaf(f, _) => Tag(f, top)
    case Fault(m, trail) => if trail == [] then ErrorRecord(m) else Tag(ErrorRecord(m), top)
  }

  /** The record the corrected walk yields: a file tagged with the path of
      the folder that holds it, an exception as an untagged error record. */
  function AsIntended(path: string, e: Emit): Record
  {
    match e
    case Leaf(f, trail) => Tag(f, TruePath(path, trail))
    case Fault(m, _) => ErrorRecord(m)
  }

  function RenderAsWritten(path: string, es: seq<Emit>): (out: seq<Record>)
    ensures |out| == |es| && forall i :: 0 <= i < |es| ==> out[i] == AsWritten(path, es[i])
  {
    seq(|es|, i requires 0 <= i < |es| => AsWritten(path, es[i]))
  }

  function RenderAsIntended(path: string, es: seq<Emit>): (out: seq<Record>)
    ensures |out| == |es| && forall i :: 0 <= i < |es| ==> out[i] == AsIntended(path, es[i])
  {
    seq(|es|, i requires 0 <= i < |es| => AsIntended(path, es[i]))
  }

  /** The walk as written yields, for each file and exception in depth-first
      order, its record tagged with the path of the first-level folder above
      it (the starting path for the starting folder's own files). */
  lemma {:induction false} NestedChildrenTags(path: string, l: Listing)
    ensures NestedChildren(path, l) == RenderAsWritten(path, Emitted(l))
    decreases l, 1
  {
    if l.Listed? {
      WalkEntriesTags(path, l, 0);
    }
  }

  lemma {:induction false} WalkEntriesTags(path: string, l: Listing, i: nat)
    requires l.Listed? && i <= |l.entries|
    ensures WalkEntries(path, l, i) == RenderAsWritten(path, EmitEntries(l, i))
    decreases l, 0, |l.entries| - i
  {
    if i < |l.entries| {
      match l.entries[i]
      case Broken(e) =>
      case File(f) =>
        WalkEntriesTags(path, l, i + 1);
      case Folder(_, name, sub) =>
        var inner := path + "/" + name;
        WalkEntriesTags(path, l, i + 1);
        NestedChildrenTags(inner, sub);
        var es := Emitted(sub);
        var lhs := Retag(NestedChildren(inner, sub), inner);
        var rhs := RenderAsWritten(path, Under(name, es));
        forall k | 0 <= k < |es| ensures lhs[k] == rhs[k] {
          TagTwice(if es[k].Leaf? then es[k].fields else ErrorRecord(es[k].reason),
                   if es[k].trail == [] then inner else inner + "/" + es[k].trail[0], inner);
        }
        assert lhs == rhs;
    }
  }

  /** The corrected walk yields each file tagged with the path of the folder
      that holds it, and each exception as an untagged error record. */
  lemma {:induction false} NestedChildrenFixedTags(path: string, l: Listing)
    ensures NestedChildrenFixed(path, l) == RenderAsIntended(path, Emitted(l))
    decreases l, 1
  {
    if l.Listed? {
      WalkEntriesFixedTags(path, l, 0);
    }
  }

  lemma {:induction false} WalkEntriesFixedTags(path: string, l: Listing, i: nat)
    requires l.Listed? && i <= |l.entries|
    ensures WalkEntriesFixed(path, l, i) == RenderAsIntended(path, EmitEntries(l, i))
    decreases l, 0, |l.entries| - i
  {
    if i < |l.entries| {
      match l.entries[i]
      case Broken(e) =>
      case File(f) =>
        WalkEntriesFixedTags(path, l, i + 1);
      case Folder(_, name, sub) =>
        var inner := path + "/" + name;
        WalkEntriesFixedTags(path, l, i + 1);
        NestedChildrenFixedTags(inner, sub);
        var es := Emitted(sub);
        assert RenderAsIntended(inner, es) == RenderAsIntended(path, Under(name, es));
    }
  }

  /** An exception of the starting folder itself is met only last: it ends
      the walk, and nothing follows its error record. */
  lemma {:induction false} TopFaultIsLast(l: Listing)
    ensures forall k :: 0 <= k < |Emitted(l)| && Emitted(l)[k].Fault? && Emitted(l)[k].trail == [] ==>
      k == |Emitted(l)| - 1
    decreases l, 1
  {
    if l.Listed? {
      TopFaultIsLastFrom(l, 0);
    }
  }

  lemma {:induction false} TopFaultIsLastFrom(l: Listing, i: nat)
    requires l.Listed? && i <= |l.entries|
    ensures forall k :: 0 <= k < |EmitEntries(l, i)| && EmitEntries(l, i)[k].Fault? && EmitEntries(l, i)[k].trail == [] ==>
      k == |EmitEntries(l, i)| - 1
    decreases |l.entries| - i
  {
    if i < |l.entries| {
      TopFaultIsLastFrom(l, i + 1);
      match l.entries[i]
      case Broken(e) =>
      case File(f) =>
        var rest := EmitEntries(l, i + 1);
        assert EmitEntries(l, i) == [Leaf(f, [])] + rest;
        assert forall k :: 1 <= k < |rest| + 1 ==> EmitEntries(l, i)[k] == rest[k - 1];
      case Folder(_, name, sub) =>
        var rest := EmitEntries(l, i + 1);
        var front := Under(name, Emitted(sub));
        assert EmitEntries(l, i) == front + rest;
        assert forall k :: |front| <= k < |front| + |rest| ==> EmitEntries(l, i)[k] == rest[k - |front|];
    }
  }

  /** Without a resolvable drive the walk yields nothing, not even an error
      record. */
  lemma NoDriveYieldsNothing(path: string)
    ensures NestedChildren(path, NoDrive) == []
    ensures NestedChildrenFixed(path, NoDrive) == []
  {
  }

  // ---------------------------------------------------------------------------
  // A leaf two folders down

  const DeepFile: Record := map["id" := JStr("f")]

  /** The folder `a` holding the folder `b` holding one file. */
  const TwoDeep := Listed([Folder(map[], "a", Listed([Folder(map[], "b", Listed([File(DeepFile)], None))], None))], None)

  /** The file lies in "p/a/b", but the walk as written tags it "p/a"; the
      corrected walk tags it "p/a/b". */
  lemma DeepLeafCounterexample()
    ensures NestedChildren("p", TwoDeep) == [Tag(DeepFile, "p/a")]
    ensures NestedChildrenFixed("p", TwoDeep) == [Tag(DeepFile, "p/a/b")]
  {
    NestedChildrenTags("p", TwoDeep);
    NestedChildrenFixedTags("p", TwoDeep);
    var inner := Listed([File(DeepFile)], None);
    assert EmitEntries(inner, 1) == [];
    assert Emitted(inner) == [Leaf(DeepFile, [])];
    var mid := Listed([Folder(map[], "b", inner)], None);
    assert EmitEntries(mid, 1) == [];
    assert Under("b", [Leaf(DeepFile, [])]) == [Leaf(DeepFile, ["b"])] by {
      assert ["b"] + [] == ["b"];
    }
    assert Emitted(mid) == [Leaf(DeepFile, ["b"])];
    assert EmitEntries(TwoDeep, 1) == [];
    assert Under("a", [Leaf(DeepFile, ["b"])]) == [Leaf(DeepFile, ["a", "b"])] by {
      assert ["a"] + ["b"] == ["a", "b"];
    }
    assert Emitted(TwoDeep) == [Leaf(DeepFile, ["a", "b"])];
    assert "p" + "/" + "a" == "p/a";
    assert TruePath("p", ["a", "b"]) == "p/a/b" by {
      assert ["a", "b"][1..] == ["b"];
    }
  }
}
