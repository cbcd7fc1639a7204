/** Loading scan targets from Bugcrowd program data (loader.py). A target path is a missing
    path, a file, or a directory whose regular `*.json` files are read in name order; each file
    holds a list of programs, and each program lists its in-scope entries, of which those of an
    allowed type with a non-empty URI become targets. The file system is a parameter: whether
    the path exists, the directory listing, and what parsing each file gave. */
module Loader {
  import opened Outcomes
  import opened Json
  import opened Text

  /** `_ALLOWED_TARGET_TYPES` */
  const AllowedTargetTypes: set<string> := {"api", "website"}
  const WrongFormatMessage: string := "Wrong JSON format. It is expected that it contains a list"

  /** A target to scan. The name and the resource are whatever JSON values the entry held;
      the type passed the allow-list, so it is a string. */
  datatype Target = Target(name: Json, targetType: string, resource: Json)

  // ---------------------------------------------------------------------------
  // One program

  /** The entry's `type` is an allowed type. */
  predicate TypeAllowed(entry: Json) {
    entry.JObject? &&
    match Lookup(entry.members, "type")
    case Some(JString(s)) => s in AllowedTargetTypes
    case _ => false
  }

  /** The entry's `uri` is present and not empty (Python truthiness). */
  predicate UriGiven(entry: Json) {
    entry.JObject? &&
    match Lookup(entry.members, "uri")
    case Some(v) => Truthy(v)
    case None => false
  }

  /** The body of the loop over in-scope entries: the target the entry contributes, if any,
      or the exception raised while looking at it. */
  function EntryTargets(entry: Json): (r: Outcome<seq<Target>>)
    ensures r.Ok? ==> |r.value| <= 1
    ensures r.Ok? && r.value != [] <==>
              TypeAllowed(entry) && UriGiven(entry) && Lookup(entry.members, "name").Some?
    ensures r.Ok? && r.value != [] ==>
              r.value[0] == Target(Lookup(entry.members, "name").value,
                                   Lookup(entry.members, "type").value.s,
                                   Lookup(entry.members, "uri").value)
    ensures TypeAllowed(entry) && UriGiven(entry) && Lookup(entry.members, "name").None? ==>
              r == Raised(KeyError("name"))
    ensures !entry.JObject? ==> r == Raised(TypeError)
    ensures entry.JObject? && Lookup(entry.members, "type").None? ==> r == Raised(KeyError("type"))
    ensures entry.JObject? && Lookup(entry.members, "type").Some?
            && (Lookup(entry.members, "type").value.JArray? || Lookup(entry.members, "type").value.JObject?) ==>
              r == Raised(TypeError)
    ensures TypeAllowed(entry) && Lookup(entry.members, "uri").None? ==> r == Raised(KeyError("uri"))
    ensures (&& entry.JObject? && Lookup(entry.members, "type").Some?
             && !Lookup(entry.members, "type").value.JArray? && !Lookup(entry.members, "type").value.JObject?
             && !TypeAllowed(entry)) ==> r == Ok([])
    ensures TypeAllowed(entry) && Lookup(entry.members, "uri").Some? && !UriGiven(entry) ==> r == Ok([])
  {
    var entryType :- Subscript(entry, "type");
    var allowed :- InStrings(entryType, AllowedTargetTypes);
    if !allowed then Ok([])
    else
      var uri :- Subscript(entry, "uri");
      if !Truthy(uri) then Ok([])
      else
        var name :- Subscript(entry, "name");
        Ok([Target(name, entryType.s, uri)])
  }

  /** What each entry contributed, or raised. */
  function EntryOutcomes(entries: seq<Json>): (r: seq<Outcome<seq<Target>>>)
    ensures |r| == |entries| && forall i :: 0 <= i < |entries| ==> r[i] == EntryTargets(entries[i])
  {
    seq(|entries|, i requires 0 <= i < |entries| => EntryTargets(entries[i]))
  }

  /** `raw_data['targets']['in_scope']`, iterated. */
  function InScopeEntries(program: Json): Outcome<seq<Json>> {
    var targets :- Subscript(program, "targets");
    var inScope :- Subscript(targets, "in_scope");
    Iterate(inScope)
  }

  /** The targets of one program, or the exception `_load_bugcrowd_program` raises. */
  function ProgramTargets(program: Json): Outcome<seq<Target>> {
    var entries :- InScopeEntries(program);
    Flatten(EntryOutcomes(entries))
  }

  /** `_load_bugcrowd_program`: each in-scope entry looked at in turn, its target appended. */
  method LoadBugcrowdProgram(program: Json) returns (r: Outcome<seq<Target>>)
    ensures r == ProgramTargets(program)
  {
    var entries :- InScopeEntries(program);
    ghost var outs := EntryOutcomes(entries);
    var result: seq<Target> := [];
    for i := 0 to |entries|
      invariant Flatten(outs[..i]) == Ok(result)
    {
      var target := EntryTargets(entries[i]);
      assert outs[..i + 1][..i] == outs[..i];
      if target.Raised? {
        FlattenKeepsFailure(outs, i + 1);
        return Raised(target.exc);
      }
      result := result + target.value;
    }
    assert outs[..|entries|] == outs;
    r := Ok(result);
  }

  /** A program's targets are exactly the targets of its entries of an allowed type with
      a non-empty URI; there are never more of them than entries. */
  lemma ProgramTargetsAreKeptEntries(entries: seq<Json>)
    requires Flatten(EntryOutcomes(entries)).Ok?
    ensures var targets := Flatten(EntryOutcomes(entries)).value;
      && |targets| <= |entries|
      && (forall t :: t in targets <==> exists i :: 0 <= i < |entries| && EntryTargets(entries[i]) == Ok([t]))
  {
    var outs := EntryOutcomes(entries);
    forall t {
      FlattenSingleton(outs, t);
    }
    FlattenAtMostOne(outs);
  }

  /** Every target of a program has an allowed type and a non-empty resource. */
  lemma ProgramTargetsAreAllowed(entries: seq<Json>, t: Target)
    requires Flatten(EntryOutcomes(entries)).Ok? && t in Flatten(EntryOutcomes(entries)).value
    ensures t.targetType in AllowedTargetTypes && Truthy(t.resource)
  {
    var outs := EntryOutcomes(entries);
    FlattenSingleton(outs, t);
    var i :| 0 <= i < |entries| && outs[i] == Ok([t]);
    assert EntryTargets(entries[i]) == Ok([t]);
  }

  /** When every call returns at most one item, an item is in the result exactly when some
      call returned it alone. */
  lemma FlattenSingleton<T>(outs: seq<Outcome<seq<T>>>, t: T)
    requires Flatten(outs).Ok?
    requires forall i :: 0 <= i < |outs| ==> |outs[i].value| <= 1
    ensures t in Flatten(outs).value <==> exists i :: 0 <= i < |outs| && outs[i] == Ok([t])
  {
    FlattenMembers(outs);
    if t in Flatten(outs).value {
      var i :| 0 <= i < |outs| && t in outs[i].value;
      assert outs[i].value == [t];
    }
  }

  /** A loop whose every call returns at most one item returns at most as many items as
      there were calls. */
  lemma {:induction false} FlattenAtMostOne<T>(outs: seq<Outcome<seq<T>>>)
    requires Flatten(outs).Ok?
    requires forall i :: 0 <= i < |outs| ==> |outs[i].value| <= 1
    ensures |Flatten(outs).value| <= |outs|
  {
    if outs != [] {
      var init := outs[..|outs| - 1];
      assert forall i :: 0 <= i < |init| ==> init[i] == outs[i];
      FlattenAtMostOne(init);
    }
  }

  /** The targets of a list of entries are those of a first part followed by those of the
      rest: targets come out in entry order. */
  lemma EntryTargetsInOrder(xs: seq<Json>, ys: seq<Json>)
    ensures Flatten(EntryOutcomes(xs + ys)) ==
              (var a :- Flatten(EntryOutcomes(xs)); var b :- Flatten(EntryOutcomes(ys)); Ok(a + b))
  {
    var whole, front, back := EntryOutcomes(xs + ys), EntryOutcomes(xs), EntryOutcomes(ys);
    forall i | 0 <= i < |whole| ensures whole[i] == (front + back)[i] {
      if i < |xs| {
        assert (xs + ys)[i] == xs[i];
      } else {
        assert (xs + ys)[i] == ys[i - |xs|];
      }
    }
    assert whole == front + back;
    FlattenAppend(front, back);
  }

  // ---------------------------------------------------------------------------
  // Bugcrowd-shaped data

  /** An in-scope entry as Bugcrowd data writes it. */
  function BugcrowdEntry(name: string, kind: string, uri: string): Json {
    JObject([("name", JString(name)), ("type", JString(kind)), ("uri", JString(uri))])
  }

  /** A program whose `targets.in_scope` lists the entries. */
  function BugcrowdProgram(entries: seq<Json>): Json {
    JObject([("targets", JObject([("in_scope", JArray(entries))]))])
  }

  lemma BugcrowdEntryLookups(name: string, kind: string, uri: string)
    ensures var m := BugcrowdEntry(name, kind, uri).members;
      && Lookup(m, "name") == Some(JString(name))
      && Lookup(m, "type") == Some(JString(kind))
      && Lookup(m, "uri") == Some(JString(uri))
  {
    var m := BugcrowdEntry(name, kind, uri).members;
    assert "type" != "name" by {
      assert "type"[0] != "name"[0];
    }
    assert m[..2] == [("name", JString(name)), ("type", JString(kind))];
    assert m[..2][..1] == [("name", JString(name))];
    assert Lookup(m[..2][..1], "name") == Some(JString(name));
    assert Lookup(m[..2], "name") == Some(JString(name));
  }

  /** An entry of an allowed type with a URI becomes a target whose resource is that URI. */
  lemma AllowedEntryIsTarget(name: string, kind: string, uri: string)
    requires kind in AllowedTargetTypes && uri != ""
    ensures EntryTargets(BugcrowdEntry(name, kind, uri)) == Ok([Target(JString(name), kind, JString(uri))])
  {
    BugcrowdEntryLookups(name, kind, uri);
  }

  /** An entry of another type, or with an empty URI, is skipped without error. */
  lemma OtherEntryIsSkipped(name: string, kind: string, uri: string)
    requires kind !in AllowedTargetTypes || uri == ""
    ensures EntryTargets(BugcrowdEntry(name, kind, uri)) == Ok([])
  {
    BugcrowdEntryLookups(name, kind, uri);
  }

  lemma BugcrowdProgramTargets(entries: seq<Json>)
    ensures ProgramTargets(BugcrowdProgram(entries)) == Flatten(EntryOutcomes(entries))
  {
    assert InScopeEntries(BugcrowdProgram(entries)) == Ok(entries);
  }

  lemma FlattenFour<T>(a: seq<T>, b: seq<T>, c: seq<T>, d: seq<T>)
    ensures Flatten([Ok(a), Ok(b), Ok(c), Ok(d)]) == Ok(a + b + c + d)
  {
    var outs := [Ok(a), Ok(b), Ok(c), Ok(d)];
    assert Flatten(outs[..1]) == Ok(a) by {
      assert outs[..1][..0] == [];
      assert [] + a == a;
    }
    assert Flatten(outs[..2]) == Ok(a + b) by {
      assert outs[..2][..1] == outs[..1];
    }
    assert Flatten(outs[..3]) == Ok(a + b + c) by {
      assert outs[..3][..2] == outs[..2];
    }
    assert outs[..3] == outs[..|outs| - 1];
  }

  lemma FourEntryOutcomes(e0: Json, e1: Json, e2: Json, e3: Json, t0: Target, t2: Target)
    requires EntryTargets(e0) == Ok([t0]) && EntryTargets(e1) == Ok([])
    requires EntryTargets(e2) == Ok([t2]) && EntryTargets(e3) == Ok([])
    ensures EntryOutcomes([e0, e1, e2, e3]) == [Ok([t0]), Ok([]), Ok([t2]), Ok([])]
  {
    var es := [e0, e1, e2, e3];
    var r := EntryOutcomes(es);
    assert r[0] == EntryTargets(es[0]) && r[1] == EntryTargets(es[1]);
    assert r[2] == EntryTargets(es[2]) && r[3] == EntryTargets(es[3]);
    SeqOfFour(r, Ok([t0]), Ok([]), Ok([t2]), Ok([]));
  }

  lemma SeqOfFour<T>(r: seq<T>, a: T, b: T, c: T, d: T)
    requires |r| == 4 && r[0] == a && r[1] == b && r[2] == c && r[3] == d
    ensures r == [a, b, c, d]
  {
  }

  lemma FourEntryProgram(e0: Json, e1: Json, e2: Json, e3: Json, t0: Target, t2: Target)
    requires EntryTargets(e0) == Ok([t0]) && EntryTargets(e1) == Ok([])
    requires EntryTargets(e2) == Ok([t2]) && EntryTargets(e3) == Ok([])
    ensures ProgramTargets(BugcrowdProgram([e0, e1, e2, e3])) == Ok([t0, t2])
  {
    BugcrowdProgramTargets([e0, e1, e2, e3]);
    FourEntryOutcomes(e0, e1, e2, e3, t0, t2);
    FlattenTwoOfFour(t0, t2);
  }

  lemma FlattenTwoOfFour(t0: Target, t2: Target)
    ensures Flatten([Ok([t0]), Ok([]), Ok([t2]), Ok([])]) == Ok([t0, t2])
  {
    FlattenFour([t0], [], [t2], []);
    assert [t0] + [] + [t2] + [] == [t0, t2];
  }

  /** A sample program with an `api` and a `website` entry, an entry of another type and
      one without a URI: the first two become targets, in order, their resources the URIs. */
  lemma SampleProgramTargets()
    ensures ProgramTargets(BugcrowdProgram([
              BugcrowdEntry("CoinDesk Data - Data API", "api", "http://data-api.coindesk.com/"),
              BugcrowdEntry("Acorns Android", "android", "https://play.google.com/"),
              BugcrowdEntry("*.acorns.com/", "website", "https://acorns.com/"),
              BugcrowdEntry("Staging API", "api", "")]))
            == Ok([Target(JString("CoinDesk Data - Data API"), "api", JString("http://data-api.coindesk.com/")),
                   Target(JString("*.acorns.com/"), "website", JString("https://acorns.com/"))])
  {
    AllowedEntryIsTarget("CoinDesk Data - Data API", "api", "http://data-api.coindesk.com/");
    OtherEntryIsSkipped("Acorns Android", "android", "https://play.google.com/");
    AllowedEntryIsTarget("*.acorns.com/", "website", "https://acorns.com/");
    OtherEntryIsSkipped("Staging API", "api", "");
    FourEntryProgram(
      BugcrowdEntry("CoinDesk Data - Data API", "api", "http://data-api.coindesk.com/"),
      BugcrowdEntry("Acorns Android", "android", "https://play.google.com/"),
      BugcrowdEntry("*.acorns.com/", "website", "https://acorns.com/"),
      BugcrowdEntry("Staging API", "api", ""),
      Target(JString("CoinDesk Data - Data API"), "api", JString("http://data-api.coindesk.com/")),
      Target(JString("*.acorns.com/"), "website", JString("https://acorns.com/")));
  }

  // ---------------------------------------------------------------------------
  // Files and directories

  /** An entry of a directory listing: its name, whether it is a regular file, and what
      reading and parsing it gives. */
  datatype DirEntry = DirEntry(name: string, isFile: bool, content: Outcome<Json>)

  /** What the file system holds at the target path. */
  datatype PathInfo =
    | Missing
    | RegularFile(content: Outcome<Json>)
    | Directory(entries: seq<DirEntry>)

  /** The index of the last occurrence of c in s, or -1 (`str.rfind`). */
  function RFind(s: string, c: char): (i: int)
    ensures -1 <= i < |s|
    ensures i >= 0 ==> s[i] == c
    ensures forall j :: i < j < |s| ==> s[j] != c
  {
    if s == [] then -1
    else if s[|s| - 1] == c then |s| - 1
    else RFind(s[..|s| - 1], c)
  }

  /** `PurePath.suffix` of a file name: from its last dot on, unless that dot starts the
      name or ends it. */
  function Suffix(name: string): string {
    var i := RFind(name, '.');
    if 0 < i < |name| - 1 then name[i..] else ""
  }

  /** A name has the suffix `.json` exactly when it is longer than `.json` and ends with it;
      a file named just `.json` has no suffix. */
  lemma JsonSuffixIff(name: string)
    ensures Suffix(name) == ".json" <==> |name| > 5 && name[|name| - 5..] == ".json"
  {
    var i := RFind(name, '.');
    if |name| > 5 && name[|name| - 5..] == ".json" {
      assert name[|name| - 5] == '.';
      assert forall j :: |name| - 5 < j < |name| ==> name[j] == name[|name| - 5..][j - (|name| - 5)];
      assert i == |name| - 5;
    }
    if Suffix(name) == ".json" {
      assert |name[i..]| == 5;
    }
  }

  /** The entries the directory branch reads: regular files with suffix `.json`. */
  function JsonFiles(entries: seq<DirEntry>): (r: seq<DirEntry>)
    ensures forall e :: e in r <==> e in entries && e.isFile && Suffix(e.name) == ".json"
    ensures forall e :: multiset(r)[e] == if e.isFile && Suffix(e.name) == ".json" then multiset(entries)[e] else 0
    ensures |r| <= |entries|
  {
    if entries == [] then []
    else
      var init := entries[..|entries| - 1];
      var last := entries[|entries| - 1];
      assert entries == init + [last];
      if last.isFile && Suffix(last.name) == ".json" then JsonFiles(init) + [last] else JsonFiles(init)
  }

  /** Entries in ascending order of name. */
  predicate SortedByName(entries: seq<DirEntry>) {
    forall i, j :: 0 <= i < j < |entries| ==> LexLe(entries[i].name, entries[j].name)
  }

  /** An entry whose name is at most every name of a sorted list can go in front. */
  lemma ConsSorted(x: DirEntry, rest: seq<DirEntry>)
    requires SortedByName(rest) && forall y :: y in rest ==> LexLe(x.name, y.name)
    ensures SortedByName([x] + rest)
  {
    var s := [x] + rest;
    forall i, j | 0 <= i < j < |s| ensures LexLe(s[i].name, s[j].name) {
      assert s[j] == rest[j - 1];
      if i > 0 {
        assert s[i] == rest[i - 1];
      }
    }
  }

  /** A name at most the first of a sorted list is at most all of them. */
  lemma BeforeFirstIsBeforeAll(e: DirEntry, sorted: seq<DirEntry>)
    requires SortedByName(sorted) && sorted != [] && LexLe(e.name, sorted[0].name)
    ensures forall y :: y in sorted ==> LexLe(e.name, y.name)
  {
    forall y | y in sorted ensures LexLe(e.name, y.name) {
      var j :| 0 <= j < |sorted| && sorted[j] == y;
      if j > 0 {
        LexLeTransitive(e.name, sorted[0].name, sorted[j].name);
      }
    }
  }

  /** The first name of a sorted list is at most every later one. */
  lemma FirstIsLeast(sorted: seq<DirEntry>)
    requires SortedByName(sorted) && sorted != []
    ensures SortedByName(sorted[1..])
    ensures forall y :: y in sorted[1..] ==> LexLe(sorted[0].name, y.name)
  {
    forall y | y in sorted[1..] ensures LexLe(sorted[0].name, y.name) {
      var j :| 0 <= j < |sorted[1..]| && sorted[1..][j] == y;
      assert sorted[j + 1] == y;
    }
  }

  /** One entry put into place in a list sorted by name. */
  function InsertByName(e: DirEntry, sorted: seq<DirEntry>): (r: seq<DirEntry>)
    requires SortedByName(sorted)
    ensures forall y :: y in r <==> y == e || y in sorted
    ensures SortedByName(r) && multiset(r) == multiset(sorted) + multiset{e}
  {
    if sorted == [] then [e]
    else if LexLe(e.name, sorted[0].name) then
      BeforeFirstIsBeforeAll(e, sorted);
      ConsSorted(e, sorted);
      [e] + sorted
    else
      FirstIsLeast(sorted);
      var rest := InsertByName(e, sorted[1..]);
      LexLeTotal(e.name, sorted[0].name);
      ConsSorted(sorted[0], rest);
      assert sorted == [sorted[0]] + sorted[1..];
      [sorted[0]] + rest
  }

  /** `sorted` on paths of one directory: ascending order of file name, the same entries. */
  function SortByName(entries: seq<DirEntry>): (r: seq<DirEntry>)
    ensures SortedByName(r) && multiset(r) == multiset(entries)
  {
    if entries == [] then []
    else
      assert entries == [entries[0]] + entries[1..];
      InsertByName(entries[0], SortByName(entries[1..]))
  }

  /** The parse results of the files `load_targets` reads, in reading order. */
  function FilesToRead(info: PathInfo): (r: seq<Outcome<Json>>)
    requires !info.Missing?
    ensures info.RegularFile? ==> r == [info.content]
  {
    match info
    case RegularFile(content) => [content]
    case Directory(entries) =>
      var files := SortByName(JsonFiles(entries));
      seq(|files|, i requires 0 <= i < |files| => files[i].content)
  }

  /** A directory is read through its regular `.json` files, each once, in name order. */
  lemma DirectoryReadsSortedJsonFiles(entries: seq<DirEntry>)
    ensures var files := SortByName(JsonFiles(entries));
      && SortedByName(files)
      && (forall e :: e in files <==> e in entries && e.isFile && |e.name| > 5 && e.name[|e.name| - 5..] == ".json")
      && (forall e :: multiset(files)[e] ==
            if e.isFile && |e.name| > 5 && e.name[|e.name| - 5..] == ".json" then multiset(entries)[e] else 0)
      && FilesToRead(Directory(entries)) == seq(|files|, i requires 0 <= i < |files| => files[i].content)
  {
    var files := SortByName(JsonFiles(entries));
    forall e ensures e in files <==> e in JsonFiles(entries) {
      assert e in files <==> e in multiset(files);
    }
    forall e: DirEntry {
      JsonSuffixIff(e.name);
    }
  }

  /** What one file contributes: its programs' targets in order, or the exception raised. */
  function FileTargets(content: Outcome<Json>): (r: Outcome<seq<Target>>)
    ensures content.Ok? && !content.value.JArray? ==> r == Raised(RuntimeError(WrongFormatMessage))
    ensures content.Raised? ==> r == content.PropagateFailure()
  {
    var raw :- content;
    if !raw.JArray? then Raised(RuntimeError(WrongFormatMessage))
    else Flatten(ProgramOutcomes(raw.items))
  }

  /** What each program contributed, or raised. */
  function ProgramOutcomes(programs: seq<Json>): (r: seq<Outcome<seq<Target>>>)
    ensures |r| == |programs| && forall i :: 0 <= i < |programs| ==> r[i] == ProgramTargets(programs[i])
  {
    seq(|programs|, i requires 0 <= i < |programs| => ProgramTargets(programs[i]))
  }

  /** What each file contributed, or raised. */
  function FileOutcomes(contents: seq<Outcome<Json>>): (r: seq<Outcome<seq<Target>>>)
    ensures |r| == |contents| && forall i :: 0 <= i < |contents| ==> r[i] == FileTargets(contents[i])
  {
    seq(|contents|, i requires 0 <= i < |contents| => FileTargets(contents[i]))
  }

  /** The targets `load_targets` returns, or the exception it raises. */
  function AllTargets(path: string, info: PathInfo): (r: Outcome<seq<Target>>)
    ensures info.Missing? ==> r == Raised(RuntimeError("Path " + path + " does not exist"))
  {
    if info.Missing? then Raised(RuntimeError("Path " + path + " does not exist"))
    else Flatten(FileOutcomes(FilesToRead(info)))
  }

  /** `load_targets`: reject a missing path, then read the files in order. */
  method LoadTargets(path: string, info: PathInfo) returns (r: Outcome<seq<Target>>)
    ensures r == AllTargets(path, info)
  {
    if info.Missing? {
      return Raised(RuntimeError("Path " + path + " does not exist"));
    }
    var files := FilesToRead(info);
    r := LoadFiles(files);
  }

  /** The loop of `load_targets`: the files in reading order, each file's programs in list
      order, each program's targets appended in turn. */
  method LoadFiles(files: seq<Outcome<Json>>) returns (r: Outcome<seq<Target>>)
    ensures r == Flatten(FileOutcomes(files))
  {
    ghost var fileOuts := FileOutcomes(files);
    var all: seq<Target> := [];
    for i := 0 to |files|
      invariant Flatten(fileOuts[..i]) == Ok(all)
    {
      assert fileOuts[..i + 1][..i] == fileOuts[..i];
      if files[i].Raised? {
        FlattenKeepsFailure(fileOuts, i + 1);
        return Raised(files[i].exc);
      }
      var raw := files[i].value;
      if !raw.JArray? {
        FlattenKeepsFailure(fileOuts, i + 1);
        return Raised(RuntimeError(WrongFormatMessage));
      }
      var targets := LoadPrograms(raw.items);
      if targets.Raised? {
        FlattenKeepsFailure(fileOuts, i + 1);
        return Raised(targets.exc);
      }
      all := all + targets.value;
    }
    assert fileOuts[..|files|] == fileOuts;
    r := Ok(all);
  }

  /** The inner loop of `load_targets`: the programs of one file in list order, each
      program's targets appended in turn. */
  method LoadPrograms(programs: seq<Json>) returns (r: Outcome<seq<Target>>)
    ensures r == Flatten(ProgramOutcomes(programs))
  {
    ghost var outs := ProgramOutcomes(programs);
    var all: seq<Target> := [];
    for j := 0 to |programs|
      invariant Flatten(outs[..j]) == Ok(all)
    {
      var targets := LoadBugcrowdProgram(programs[j]);
      assert outs[..j + 1][..j] == outs[..j];
      if targets.Raised? {
        FlattenKeepsFailure(outs, j + 1);
        return Raised(targets.exc);
      }
      all := all + targets.value;
    }
    assert outs[..|programs|] == outs;
    r := Ok(all);
  }

  /** The targets of several files are those of a first group of files followed by those
      of the rest; an exception in the first group wins. */
  lemma FileTargetsInOrder(xs: seq<Outcome<Json>>, ys: seq<Outcome<Json>>)
    ensures Flatten(FileOutcomes(xs + ys)) ==
              (var a :- Flatten(FileOutcomes(xs)); var b :- Flatten(FileOutcomes(ys)); Ok(a + b))
  {
    var whole, front, back := FileOutcomes(xs + ys), FileOutcomes(xs), FileOutcomes(ys);
    forall i | 0 <= i < |whole| ensures whole[i] == (front + back)[i] {
      if i < |xs| {
        assert (xs + ys)[i] == xs[i];
      } else {
        assert (xs + ys)[i] == ys[i - |xs|];
      }
    }
    assert whole == front + back;
    FlattenAppend(front, back);
  }

  /** Every target loaded has an allowed type and a non-empty resource. */
  lemma LoadedTargetsAreAllowed(path: string, info: PathInfo, t: Target)
    requires AllTargets(path, info).Ok? && t in AllTargets(path, info).value
    ensures t.targetType in AllowedTargetTypes && Truthy(t.resource)
  {
    var files := FilesToRead(info);
    var fileOuts := FileOutcomes(files);
    FlattenMembers(fileOuts);
    var i :| 0 <= i < |files| && t in fileOuts[i].value;
    var raw := files[i].value;
    var progOuts := ProgramOutcomes(raw.items);
    FlattenMembers(progOuts);
    var j :| 0 <= j < |raw.items| && t in progOuts[j].value;
    var entries := InScopeEntries(raw.items[j]).value;
    ProgramTargetsAreAllowed(entries, t);
  }

  /** A file whose top level is not a list rejects the whole load once the files before it
      were read without error. */
  lemma NonListFileIsRejected(path: string, info: PathInfo, k: nat)
    requires !info.Missing? && k < |FilesToRead(info)|
    requires forall i :: 0 <= i < k ==> FileTargets(FilesToRead(info)[i]).Ok?
    requires FilesToRead(info)[k].Ok? && !FilesToRead(info)[k].value.JArray?
    ensures AllTargets(path, info) == Raised(RuntimeError(WrongFormatMessage))
  {
    var outs := FileOutcomes(FilesToRead(info));
    assert outs[k] == Raised(RuntimeError(WrongFormatMessage));
    FirstFailureWins(outs, k);
  }
}
