/** The one ignore contract of every file transfer, applied to names by a directory walker and to whole
    paths by an uploader. */
module IgnoreRules {
  import opened Wrappers
  import opened Sequences

  datatype Contract = Contract(dirNames: seq<string>, fileSuffixes: seq<string>)

  const IGNORE_CONTRACT := Contract(
    ["node_modules", "__pycache__", ".venv", "venv", ".next", ".nuxt", ".svelte-kit", ".angular", ".turbo",
     ".parcel-cache", ".pytest_cache", ".mypy_cache", ".ruff_cache", ".tox", ".gradle", ".git"],
    [".pyc", ".pyo"])

  predicate EndsWith(name: string, suffix: string) {
    |suffix| <= |name| && name[|name| - |suffix|..] == suffix
  }

  function FindSuffix(suffixes: seq<string>, name: string): (r: Option<string>)
    ensures r.Some? ==> r.value in suffixes && EndsWith(name, r.value)
    ensures r.None? ==> forall s :: s in suffixes ==> !EndsWith(name, s)
  {
    if suffixes == [] then None
    else if EndsWith(name, suffixes[0]) then Some(suffixes[0])
    else FindSuffix(suffixes[1..], name)
  }

  /** The rule that excludes one directory entry, if any. */
  function IgnoreRuleFor(name: string, isDirectory: bool, contract: Contract): Option<string> {
    if isDirectory then if name in contract.dirNames then Some(name) else None
    else FindSuffix(contract.fileSuffixes, name)
  }

  /** A path cut at its slashes. */
  function Segments(path: string): (r: seq<string>)
    ensures |r| >= 1
  {
    if path == "" then [""]
    else
      var n := |path| - 1;
      var before := Segments(path[..n]);
      if path[n] == '/' then before + [""]
      else before[..|before| - 1] + [before[|before| - 1] + [path[n]]]
  }

  predicate IsName(name: string) {
    name != "" && '/' !in name
  }

  lemma {:induction false} SegmentsOfChild(path: string, name: string)
    requires '/' !in name
    ensures Segments(path + "/" + name) == Segments(path) + [name]
  {
    var whole := path + "/" + name;
    if name == "" {
      assert whole[..|path|] == path;
    } else {
      var n := |name| - 1;
      SegmentsOfChild(path, name[..n]);
      assert whole[..|whole| - 1] == path + "/" + name[..n];
      assert name[..n] + [name[n]] == name;
    }
  }

  lemma {:induction false} SegmentsOfName(name: string)
    requires '/' !in name
    ensures Segments(name) == [name]
  {
    if name != "" {
      SegmentsOfName(name[..|name| - 1]);
      assert name[..|name| - 1] + [name[|name| - 1]] == name;
    }
  }

  /** The first segment that is an ignored directory name. */
  function FindDirectory(segments: seq<string>, contract: Contract): (r: Option<string>)
    ensures r.Some? <==> exists i :: 0 <= i < |segments| && segments[i] in contract.dirNames
    ensures r.Some? ==> r.value in segments && r.value in contract.dirNames
  {
    if segments == [] then None
    else if IgnoreRuleFor(segments[0], true, contract).Some? then Some(segments[0])
    else
      var r := FindDirectory(segments[1..], contract);
      assert r.None? ==> forall i :: 0 <= i < |segments| ==> segments[i] !in contract.dirNames;
      r
  }

  /** The rule that excludes a file by its path: its directories first, then its own name. */
  function PathRule(path: string, contract: Contract): Option<string> {
    var segments := Segments(path);
    var n := |segments| - 1;
    var directory := FindDirectory(segments[..n], contract);
    if directory.Some? then directory else IgnoreRuleFor(segments[n], false, contract)
  }

  lemma EndsWithIff(name: string, suffix: string)
    ensures EndsWith(name, suffix) <==> exists front :: name == front + suffix
  {
    if EndsWith(name, suffix) {
      assert name == name[..|name| - |suffix|] + suffix;
    }
  }

  function Rejoined(segments: seq<string>): string {
    if segments == [] then ""
    else if |segments| == 1 then segments[0]
    else Rejoined(segments[..|segments| - 1]) + "/" + segments[|segments| - 1]
  }

  lemma RejoinedLonger(segments: seq<string>, last: string, c: char)
    ensures Rejoined(segments + [last + [c]]) == Rejoined(segments + [last]) + [c]
  {
    if segments == [] {
      assert segments + [last] == [last] && segments + [last + [c]] == [last + [c]];
    } else {
      assert (segments + [last])[..|segments|] == segments == (segments + [last + [c]])[..|segments|];
      AppendAssociates(Rejoined(segments) + "/", last, [c]);
    }
  }

  /** The segments of a path hold no slash, and joined by slashes they are the path. */
  lemma {:induction false} SegmentsAre(path: string)
    ensures Rejoined(Segments(path)) == path
    ensures forall i :: 0 <= i < |Segments(path)| ==> '/' !in Segments(path)[i]
  {
    if path != "" {
      var n := |path| - 1;
      var before := Segments(path[..n]);
      SegmentsAre(path[..n]);
      assert path == path[..n] + [path[n]];
      if path[n] == '/' {
        assert (before + [""])[..|before|] == before;
        assert path[..n] + "/" + "" == path[..n] + "/";
      } else {
        var front, last := before[..|before| - 1], before[|before| - 1];
        assert before == front + [last];
        RejoinedLonger(front, last, path[n]);
      }
    }
  }

  /** Suffix `i` is the first that fits. */
  ghost predicate FitsFirst(suffixes: seq<string>, name: string, i: nat) {
    i < |suffixes| && EndsWith(name, suffixes[i]) && forall j :: 0 <= j < i ==> !EndsWith(name, suffixes[j])
  }

  lemma {:induction false} FirstSuffix(suffixes: seq<string>, name: string)
    ensures FindSuffix(suffixes, name).Some? ==>
              exists i: nat :: FitsFirst(suffixes, name, i) && FindSuffix(suffixes, name) == Some(suffixes[i])
  {
    if suffixes != [] && FindSuffix(suffixes, name).Some? {
      var rest := suffixes[1..];
      if EndsWith(name, suffixes[0]) {
        assert FitsFirst(suffixes, name, 0);
      } else {
        FirstSuffix(rest, name);
        var i: nat :| FitsFirst(rest, name, i) && FindSuffix(rest, name) == Some(rest[i]);
        assert forall j :: 0 < j <= i + 1 ==> suffixes[j] == rest[j - 1];
        assert FitsFirst(suffixes, name, i + 1);
      }
    }
  }

  /** Segment `i` is the first that bears an ignored name. */
  ghost predicate IgnoredFirst(segments: seq<string>, contract: Contract, i: nat) {
    i < |segments| && segments[i] in contract.dirNames && forall j :: 0 <= j < i ==> segments[j] !in contract.dirNames
  }

  lemma {:induction false} FirstDirectory(segments: seq<string>, contract: Contract)
    ensures FindDirectory(segments, contract).Some? ==>
              exists i: nat :: IgnoredFirst(segments, contract, i) && FindDirectory(segments, contract) == Some(segments[i])
  {
    if segments != [] && FindDirectory(segments, contract).Some? {
      var rest := segments[1..];
      if segments[0] in contract.dirNames {
        assert IgnoredFirst(segments, contract, 0);
      } else {
        FirstDirectory(rest, contract);
        var i: nat :| IgnoredFirst(rest, contract, i) && FindDirectory(rest, contract) == Some(rest[i]);
        assert forall j :: 0 < j <= i + 1 ==> segments[j] == rest[j - 1];
        assert IgnoredFirst(segments, contract, i + 1);
      }
    }
  }

  /** A file travels exactly if none of the directories on its path bears an ignored name and its own name ends with
      none of the ignored suffixes. */
  lemma IncludedIff(path: string, contract: Contract)
    ensures var segments := Segments(path);
            var last := |segments| - 1;
            PathRule(path, contract).None? <==>
              (forall i :: 0 <= i < last ==> segments[i] !in contract.dirNames)
              && forall s, front :: s in contract.fileSuffixes ==> segments[last] != front + s
  {
    var segments := Segments(path);
    var last := |segments| - 1;
    assert forall i :: 0 <= i < last ==> segments[..last][i] == segments[i];
    forall s | s in contract.fileSuffixes
      ensures EndsWith(segments[last], s) <==> exists front :: segments[last] == front + s
    {
      EndsWithIff(segments[last], s);
    }
  }

  /** The rule named is the first ignored directory on the path, or, if there is none, the first suffix that fits. */
  lemma RuleIsFirst(path: string, contract: Contract)
    requires PathRule(path, contract).Some?
    ensures var segments, rule := Segments(path), PathRule(path, contract).value;
            var directories, name := segments[..|segments| - 1], segments[|segments| - 1];
            if exists i: nat :: IgnoredFirst(directories, contract, i)
            then exists i: nat :: IgnoredFirst(directories, contract, i) && rule == directories[i]
            else exists i: nat :: FitsFirst(contract.fileSuffixes, name, i) && rule == contract.fileSuffixes[i]
  {
    var segments := Segments(path);
    var directories, name := segments[..|segments| - 1], segments[|segments| - 1];
    FirstDirectory(directories, contract);
    FirstSuffix(contract.fileSuffixes, name);
    if i: nat :| IgnoredFirst(directories, contract, i) {
      assert FindDirectory(directories, contract).Some?;
    }
  }

  function ExcludedBy(rule: Option<string>, contract: Contract): string -> bool {
    (path: string) => PathRule(path, contract) == rule
  }

  /** The paths, in order, that one rule excludes; under no rule, the included ones. */
  function Matching(paths: seq<string>, rule: Option<string>, contract: Contract): seq<string> {
    Filter(paths, ExcludedBy(rule, contract))
  }

  lemma MatchingNext(paths: seq<string>, i: nat, rule: Option<string>, contract: Contract)
    requires i < |paths|
    ensures Matching(paths[..i + 1], rule, contract) ==
            if PathRule(paths[i], contract) == rule then Matching(paths[..i], rule, contract) + [paths[i]]
            else Matching(paths[..i], rule, contract)
  {
    assert paths[..i + 1][..i] == paths[..i];
  }

  lemma MatchingOne(path: string, contract: Contract)
    ensures Matching([path], None, contract) == if PathRule(path, contract).None? then [path] else []
  {
    assert [path][..0] == [];
  }

  function Bucket(excluded: map<string, seq<string>>, rule: string): seq<string> {
    if rule in excluded then excluded[rule] else []
  }

  /** Each bucket holds, in order, exactly the paths its rule excludes, and no bucket is empty. */
  ghost predicate Bucketed(excluded: map<string, seq<string>>, paths: seq<string>, contract: Contract) {
    forall rule: string ::
      && Bucket(excluded, rule) == Matching(paths, Some(rule), contract)
      && (rule in excluded <==> Bucket(excluded, rule) != [])
  }

  lemma BucketedNext(excluded: map<string, seq<string>>, paths: seq<string>, i: nat, contract: Contract)
    requires i < |paths| && Bucketed(excluded, paths[..i], contract)
    ensures var matched := PathRule(paths[i], contract);
            Bucketed(
              if matched.None? then excluded
              else excluded[matched.value := Bucket(excluded, matched.value) + [paths[i]]],
              paths[..i + 1], contract)
  {
    var matched := PathRule(paths[i], contract);
    var after := if matched.None? then excluded
                 else excluded[matched.value := Bucket(excluded, matched.value) + [paths[i]]];
    forall rule: string
      ensures && Bucket(after, rule) == Matching(paths[..i + 1], Some(rule), contract)
              && (rule in after <==> Bucket(after, rule) != [])
    {
      MatchingNext(paths, i, Some(rule), contract);
      assert Bucket(excluded, rule) == Matching(paths[..i], Some(rule), contract);
    }
  }

  /** Every path lands in exactly one place: with the included ones, in order, or in the bucket of the
      rule that excluded it, in order. */
  method PartitionByIgnore(paths: seq<string>, contract: Contract)
    returns (included: seq<string>, excluded: map<string, seq<string>>)
    ensures included == Matching(paths, None, contract)
    ensures Bucketed(excluded, paths, contract)
  {
    included, excluded := [], map[];
    for i := 0 to |paths|
      invariant included == Matching(paths[..i], None, contract)
      invariant Bucketed(excluded, paths[..i], contract)
    {
      MatchingNext(paths, i, None, contract);
      BucketedNext(excluded, paths, i, contract);
      var matched := PathRule(paths[i], contract);
      if matched.None? {
        included := included + [paths[i]];
      } else {
        excluded := excluded[matched.value := Bucket(excluded, matched.value) + [paths[i]]];
      }
    }
    assert paths[..|paths|] == paths;
  }

  /** Nothing is lost and nothing is kept twice: a path is found in the included list or in one bucket,
      never in both and never in two. */
  lemma PartitionIsExact(paths: seq<string>, excluded: map<string, seq<string>>, p: string, contract: Contract)
    requires Bucketed(excluded, paths, contract) && p in paths
    ensures p in Matching(paths, None, contract) <==> PathRule(p, contract).None?
    ensures forall rule :: rule in excluded ==> (p in excluded[rule] <==> PathRule(p, contract) == Some(rule))
    ensures PathRule(p, contract).Some? ==> PathRule(p, contract).value in excluded
  {
    FilterFacts(paths, ExcludedBy(None, contract));
    FilterFacts(paths, ExcludedBy(PathRule(p, contract), contract));
    forall rule | rule in excluded
      ensures p in excluded[rule] <==> PathRule(p, contract) == Some(rule)
    {
      FilterFacts(paths, ExcludedBy(Some(rule), contract));
      assert Bucket(excluded, rule) == Matching(paths, Some(rule), contract);
    }
    if PathRule(p, contract).Some? {
      var rule := PathRule(p, contract).value;
      assert Bucket(excluded, rule) == Matching(paths, Some(rule), contract);
    }
  }
}

/** The recursive walker behind the file panels: it descends to a depth, lists at most so many entries a
    directory, and can count the files below each directory it lists. */
module FileTree {
  import opened Wrappers
  import opened Sequences
  import opened IgnoreRules

  /** A directory tree as the file system holds it, in readdir order. */
  datatype Entry = File(name: string) | Dir(name: string, readable: bool, entries: seq<Entry>)

  datatype TreeNode =
    | FileNode(name: string, path: string)
    | DirNode(name: string, path: string, children: seq<TreeNode>, files: Option<nat>, truncated: bool)

  /** Names are non-empty and hold no slash. */
  predicate Named(entries: seq<Entry>)
    decreases entries
  {
    forall e :: e in entries ==> IsName(e.name) && (e.Dir? ==> Named(e.entries))
  }

  predicate Hidden(e: Entry, contract: Contract) {
    IgnoreRuleFor(e.name, e.Dir?, contract).Some?
  }

  function ChildPath(path: string, name: string): string {
    if path == "" then name else path + "/" + name
  }

  /** The entries a transfer may see. */
  function Visible(entries: seq<Entry>, contract: Contract): seq<Entry> {
    if entries == [] then []
    else
      var n := |entries| - 1;
      Visible(entries[..n], contract) + if Hidden(entries[n], contract) then [] else [entries[n]]
  }

  /** One bounded read of a directory: the ceiling counts visible entries and stops the scan. */
  method ReadListingEntries(entries: seq<Entry>, maxEntries: Option<nat>, contract: Contract)
    returns (listed: seq<Entry>, truncated: bool)
    ensures truncated <==> maxEntries.Some? && |Visible(entries, contract)| > maxEntries.value
    ensures !truncated ==> listed == Visible(entries, contract)
    ensures truncated ==> listed == Visible(entries, contract)[..maxEntries.value]
  {
    listed, truncated := [], false;
    var i := 0;
    while i < |entries|
      invariant 0 <= i <= |entries| && !truncated
      invariant listed == Visible(entries[..i], contract)
      invariant maxEntries.Some? ==> |listed| <= maxEntries.value
    {
      assert entries[..i + 1][..i] == entries[..i];
      var entry := entries[i];
      i := i + 1;
      if Hidden(entry, contract) {
        continue;
      }
      if maxEntries.Some? && |listed| >= maxEntries.value {
        truncated := true;
        VisiblePrefix(entries, i, contract);
        return;
      }
      listed := listed + [entry];
    }
    assert entries[..|entries|] == entries;
  }

  lemma {:induction false} VisiblePrefix(entries: seq<Entry>, n: nat, contract: Contract)
    requires n <= |entries|
    ensures Visible(entries[..n], contract) <= Visible(entries, contract)
    decreases |entries| - n
  {
    if n < |entries| {
      VisiblePrefix(entries, n + 1, contract);
      assert entries[..n + 1][..n] == entries[..n];
    } else {
      assert entries[..n] == entries;
    }
  }

  datatype Options = Options(maxDepth: Option<nat>, maxEntries: Option<nat>, countFiles: bool, contract: Contract)

  datatype Walked = Walked(nodes: seq<TreeNode>, files: nat, cut: bool, truncated: bool)

  /** Every file under a directory that can be read, counted without building nodes. */
  function CountFilesUnder(dir: Entry, contract: Contract): nat
    requires dir.Dir?
    decreases dir, 0
  {
    if dir.readable then CountFiles(dir.entries, contract) else 0
  }

  function CountFiles(entries: seq<Entry>, contract: Contract): nat
    decreases entries
  {
    if entries == [] then 0
    else
      var e := entries[0];
      (if Hidden(e, contract) then 0 else if e.Dir? then CountFilesUnder(e, contract) else 1)
      + CountFiles(entries[1..], contract)
  }

  /** One directory of the walk. Past the depth the tree stops and the count does not; a directory that
      cannot be read is an empty branch. */
  function Walk(dir: Entry, path: string, depth: nat, o: Options): Walked
    requires dir.Dir?
    decreases dir, 0
  {
    if o.maxDepth.Some? && depth >= o.maxDepth.value then
      Walked([], if o.countFiles then CountFilesUnder(dir, o.contract) else 0, false, false)
    else if !dir.readable then Walked([], 0, false, false)
    else WalkEntries(dir.entries, path, depth, o.maxEntries, o)
  }

  /** The entries of one directory, `room` of them at most. */
  function WalkEntries(entries: seq<Entry>, path: string, depth: nat, room: Option<nat>, o: Options): Walked
    decreases entries
  {
    if entries == [] then Walked([], 0, false, false)
    else
      var e := entries[0];
      if Hidden(e, o.contract) then WalkEntries(entries[1..], path, depth, room, o)
      else if room == Some(0) then Walked([], 0, true, true)
      else
        var left := if room.Some? then Some(room.value - 1) else None;
        var rest := WalkEntries(entries[1..], path, depth, left, o);
        match e
        case File(name) =>
          Walked([FileNode(name, ChildPath(path, name))] + rest.nodes, 1 + rest.files, rest.cut, rest.truncated)
        case Dir(name, _, _) =>
          var below := Walk(e, ChildPath(path, name), depth + 1, o);
          var node := DirNode(name, ChildPath(path, name), below.nodes,
                              if o.countFiles then Some(below.files) else None, below.cut);
          Walked([node] + rest.nodes, below.files + rest.files, rest.cut, below.truncated || rest.truncated)
  }

  function BuildTree(root: Entry, o: Options): Walked
    requires root.Dir?
  {
    Walk(root, "", 0, o)
  }

  // ---------------------------------------------------------------------------------------------
  // The walk and the flat filter agree.

  /** Every file path of the tree that can be listed, ignored or not. */
  function AllFiles(entries: seq<Entry>, path: string): seq<string>
    decreases entries
  {
    if entries == [] then []
    else
      var e := entries[0];
      (if e.Dir? then if e.readable then AllFiles(e.entries, ChildPath(path, e.name)) else []
       else [ChildPath(path, e.name)])
      + AllFiles(entries[1..], path)
  }

  /** The file paths of a built tree, depth first. */
  function FilesOf(nodes: seq<TreeNode>): seq<string>
    decreases nodes
  {
    if nodes == [] then []
    else
      (match nodes[0]
       case FileNode(_, path) => [path]
       case DirNode(_, _, children, _, _) => FilesOf(children))
      + FilesOf(nodes[1..])
  }

  /** The directories a path inside `path` goes through. */
  function DirSegments(path: string): seq<string> {
    if path == "" then [] else Segments(path)
  }

  lemma ChildSegments(path: string, name: string)
    requires '/' !in name
    ensures Segments(ChildPath(path, name)) == DirSegments(path) + [name]
  {
    if path == "" {
      SegmentsOfName(name);
    } else {
      SegmentsOfChild(path, name);
    }
  }

  /** The file paths one entry contributes. */
  function EntryFiles(e: Entry, path: string): seq<string> {
    if e.File? then [ChildPath(path, e.name)]
    else if e.readable then AllFiles(e.entries, ChildPath(path, e.name))
    else []
  }

  /** What lies in an ignored directory lies in one too. */
  lemma InsideIgnored(path: string, name: string, contract: Contract)
    requires IsName(name) && FindDirectory(DirSegments(path), contract).Some?
    ensures FindDirectory(DirSegments(ChildPath(path, name)), contract).Some?
    ensures PathRule(ChildPath(path, name), contract).Some?
  {
    ChildSegments(path, name);
    var within, own := DirSegments(path), DirSegments(path) + [name];
    var i :| 0 <= i < |within| && within[i] in contract.dirNames;
    assert own[i] == within[i] && own[..|within|] == within;
  }

  /** Nothing below an ignored directory is included. */
  lemma {:induction false} BelowIgnored(entries: seq<Entry>, path: string, contract: Contract)
    requires Named(entries) && FindDirectory(DirSegments(path), contract).Some?
    ensures Matching(AllFiles(entries, path), None, contract) == []
    decreases entries
  {
    if entries != [] {
      var e, own := entries[0], ChildPath(path, entries[0].name);
      assert Named(entries[1..]);
      BelowIgnored(entries[1..], path, contract);
      InsideIgnored(path, e.name, contract);
      FilterAppend(EntryFiles(e, path), AllFiles(entries[1..], path), ExcludedBy(None, contract));
      if e.Dir? {
        BelowIgnored(e.entries, own, contract);
      } else {
        MatchingOne(own, contract);
      }
    }
  }

  /** A file is shown exactly when the filter keeps its path. */
  lemma FileIsFilter(e: Entry, path: string, contract: Contract)
    requires e.File? && IsName(e.name) && FindDirectory(DirSegments(path), contract).None?
    ensures Matching(EntryFiles(e, path), None, contract) ==
            if Hidden(e, contract) then [] else [ChildPath(path, e.name)]
  {
    ChildSegments(path, e.name);
    MatchingOne(ChildPath(path, e.name), contract);
    assert (DirSegments(path) + [e.name])[..|DirSegments(path)|] == DirSegments(path);
  }

  /** A directory keeps its path outside every ignored directory exactly when it is shown. */
  lemma DirectoryIsFilter(e: Entry, path: string, contract: Contract)
    requires e.Dir? && IsName(e.name) && FindDirectory(DirSegments(path), contract).None?
    ensures FindDirectory(DirSegments(ChildPath(path, e.name)), contract).None? <==> !Hidden(e, contract)
  {
    var own := DirSegments(ChildPath(path, e.name));
    ChildSegments(path, e.name);
    assert own == DirSegments(path) + [e.name];
    assert Hidden(e, contract) ==> own[|DirSegments(path)|] in contract.dirNames;
    assert forall i :: 0 <= i < |DirSegments(path)| ==> own[i] == DirSegments(path)[i];
  }

  /** The file paths shown for one entry. */
  function ShownFiles(e: Entry, path: string, depth: nat, o: Options): seq<string> {
    if Hidden(e, o.contract) then []
    else if e.File? then [ChildPath(path, e.name)]
    else FilesOf(Walk(e, ChildPath(path, e.name), depth + 1, o).nodes)
  }

  lemma WalkShows(entries: seq<Entry>, path: string, depth: nat, o: Options)
    requires entries != [] && o.maxEntries.None?
    ensures FilesOf(WalkEntries(entries, path, depth, None, o).nodes) ==
            ShownFiles(entries[0], path, depth, o) + FilesOf(WalkEntries(entries[1..], path, depth, None, o).nodes)
  {
    var walked, rest := WalkEntries(entries, path, depth, None, o).nodes, WalkEntries(entries[1..], path, depth, None, o).nodes;
    if !Hidden(entries[0], o.contract) {
      assert walked[1..] == rest;
    }
  }

  /** The walker and the filter agree directory by directory, in the same order. */
  lemma {:induction false} WalkIsFilter(entries: seq<Entry>, path: string, depth: nat, o: Options)
    requires Named(entries) && FindDirectory(DirSegments(path), o.contract).None?
    requires o.maxDepth.None? && o.maxEntries.None?
    ensures FilesOf(WalkEntries(entries, path, depth, None, o).nodes) ==
            Matching(AllFiles(entries, path), None, o.contract)
    decreases entries, 0
  {
    if entries != [] {
      assert Named(entries[1..]);
      WalkIsFilter(entries[1..], path, depth, o);
      WalkShows(entries, path, depth, o);
      ShownIsFilter(entries[0], path, depth, o);
      FilterAppend(EntryFiles(entries[0], path), AllFiles(entries[1..], path), ExcludedBy(None, o.contract));
    }
  }

  lemma {:induction false} ShownIsFilter(e: Entry, path: string, depth: nat, o: Options)
    requires IsName(e.name) && (e.Dir? ==> Named(e.entries)) && FindDirectory(DirSegments(path), o.contract).None?
    requires o.maxDepth.None? && o.maxEntries.None?
    ensures ShownFiles(e, path, depth, o) == Matching(EntryFiles(e, path), None, o.contract)
    decreases e, 1
  {
    if e.File? {
      FileIsFilter(e, path, o.contract);
    } else {
      DirectoryIsFilter(e, path, o.contract);
      if Hidden(e, o.contract) {
        BelowIgnored(e.entries, ChildPath(path, e.name), o.contract);
      } else if e.readable {
        WalkIsFilter(e.entries, ChildPath(path, e.name), depth + 1, o);
      }
    }
  }

  /** The files of a full walk are exactly the included part of the partition of every file path of the
      tree, in the same order. */
  lemma FullWalkIsIncludedPart(root: Entry, countFiles: bool, contract: Contract)
    requires root.Dir? && root.readable && Named(root.entries)
    ensures FilesOf(BuildTree(root, Options(None, None, countFiles, contract)).nodes) ==
            Matching(AllFiles(root.entries, ""), None, contract)
  {
    WalkIsFilter(root.entries, "", 0, Options(None, None, countFiles, contract));
  }

  // ---------------------------------------------------------------------------------------------
  // Counting.

  /** Every directory node carries the count of everything under its directory, however deep the tree
      goes. */
  predicate Counted(nodes: seq<TreeNode>, entries: seq<Entry>, contract: Contract)
    decreases entries
  {
    if entries == [] then nodes == []
    else if Hidden(entries[0], contract) then Counted(nodes, entries[1..], contract)
    else
      && nodes != []
      && nodes[0].name == entries[0].name
      && (nodes[0].DirNode? <==> entries[0].Dir?)
      && (entries[0].Dir? ==>
            && nodes[0].files == Some(CountFilesUnder(entries[0], contract))
            && (nodes[0].children == [] || (entries[0].readable && Counted(nodes[0].children, entries[0].entries, contract))))
      && Counted(nodes[1..], entries[1..], contract)
  }

  /** Without an entry ceiling the counts do not depend on the depth of the walk. */
  lemma {:induction false} CountsIgnoreDepth(entries: seq<Entry>, path: string, depth: nat, o: Options)
    requires o.countFiles && o.maxEntries.None?
    ensures WalkEntries(entries, path, depth, None, o).files == CountFiles(entries, o.contract)
    ensures Counted(WalkEntries(entries, path, depth, None, o).nodes, entries, o.contract)
    decreases entries
  {
    if entries != [] {
      var e := entries[0];
      CountsIgnoreDepth(entries[1..], path, depth, o);
      if e.Dir? && !Hidden(e, o.contract) {
        CountsIgnoreDepth(e.entries, ChildPath(path, e.name), depth + 1, o);
        var walked := WalkEntries(entries, path, depth, None, o);
        var rest := WalkEntries(entries[1..], path, depth, None, o);
        assert walked.nodes[1..] == rest.nodes;
      } else if !Hidden(e, o.contract) {
        assert WalkEntries(entries, path, depth, None, o).nodes[1..] ==
               WalkEntries(entries[1..], path, depth, None, o).nodes;
      }
    }
  }

  /** Two walks of one tree to different depths report the same total, and every directory both list
      carries the number of files really under it. */
  lemma DepthDoesNotChangeCounts(root: Entry, a: Option<nat>, b: Option<nat>, contract: Contract)
    requires root.Dir? && root.readable
    ensures BuildTree(root, Options(a, None, true, contract)).files
         == BuildTree(root, Options(b, None, true, contract)).files
         == CountFilesUnder(root, contract)
    ensures a != Some(0) ==> Counted(BuildTree(root, Options(a, None, true, contract)).nodes, root.entries, contract)
  {
    CountsIgnoreDepth(root.entries, "", 0, Options(a, None, true, contract));
    CountsIgnoreDepth(root.entries, "", 0, Options(b, None, true, contract));
  }

  lemma {:induction false} CountIsLength(entries: seq<Entry>, path: string, depth: nat, o: Options)
    requires o.maxDepth.None? && o.maxEntries.None?
    ensures CountFiles(entries, o.contract) == |FilesOf(WalkEntries(entries, path, depth, None, o).nodes)|
    decreases entries
  {
    if entries != [] {
      var e := entries[0];
      CountIsLength(entries[1..], path, depth, o);
      WalkShows(entries, path, depth, o);
      if e.Dir? && e.readable && !Hidden(e, o.contract) {
        CountIsLength(e.entries, ChildPath(path, e.name), depth + 1, o);
      }
    }
  }

  /** The count a directory carries is the number of files in it that travel. */
  lemma CountIsIncludedFiles(root: Entry, contract: Contract)
    requires root.Dir? && root.readable && Named(root.entries)
    ensures CountFilesUnder(root, contract) == |Matching(AllFiles(root.entries, ""), None, contract)|
  {
    var o := Options(None, None, false, contract);
    CountIsLength(root.entries, "", 0, o);
    WalkIsFilter(root.entries, "", 0, o);
  }

  /** A tree cut off below so many levels. */
  function CutTo(nodes: seq<TreeNode>, levels: nat): seq<TreeNode>
    decreases nodes
  {
    if levels == 0 || nodes == [] then []
    else
      [match nodes[0]
       case FileNode(_, _) => nodes[0]
       case DirNode(name, path, children, files, truncated) => DirNode(name, path, CutTo(children, levels - 1), files, truncated)]
      + CutTo(nodes[1..], levels)
  }

  lemma CutToOneMore(node: TreeNode, rest: seq<TreeNode>, levels: nat)
    ensures levels > 0 ==> CutTo([node] + rest, levels) == CutTo([node], levels) + CutTo(rest, levels)
  {
    assert ([node] + rest)[1..] == rest && [node][1..] == [];
  }

  /** A walk to a depth shows exactly the full walk cut off there, counts and all. */
  lemma {:induction false} LimitedWalkIsCut(entries: seq<Entry>, path: string, depth: nat, o: Options, levels: nat)
    requires o.countFiles && o.maxEntries.None? && o.maxDepth == Some(depth + levels) && levels > 0
    ensures WalkEntries(entries, path, depth, None, o).nodes ==
            CutTo(WalkEntries(entries, path, depth, None, o.(maxDepth := None)).nodes, levels)
    decreases entries
  {
    if entries != [] {
      var e, full := entries[0], o.(maxDepth := None);
      LimitedWalkIsCut(entries[1..], path, depth, o, levels);
      if !Hidden(e, o.contract) {
        var rest := WalkEntries(entries[1..], path, depth, None, full).nodes;
        var node := WalkEntries(entries, path, depth, None, full).nodes[0];
        assert WalkEntries(entries, path, depth, None, full).nodes == [node] + rest;
        CutToOneMore(node, rest, levels);
        if e.Dir? {
          DirectoryIsCut(e, ChildPath(path, e.name), depth + 1, o, levels - 1);
        }
      }
    }
  }

  lemma {:induction false} DirectoryIsCut(dir: Entry, path: string, depth: nat, o: Options, levels: nat)
    requires dir.Dir? && o.countFiles && o.maxEntries.None? && o.maxDepth == Some(depth + levels)
    ensures var limited, full := Walk(dir, path, depth, o), Walk(dir, path, depth, o.(maxDepth := None));
            && limited.nodes == CutTo(full.nodes, levels) && limited.files == full.files && limited.cut == full.cut
    decreases dir, 1
  {
    if dir.readable {
      CountsIgnoreDepth(dir.entries, path, depth, o);
      CountsIgnoreDepth(dir.entries, path, depth, o.(maxDepth := None));
      TruncatedIffFlagged(dir.entries, path, depth, None, o);
      TruncatedIffFlagged(dir.entries, path, depth, None, o.(maxDepth := None));
      if levels > 0 {
        LimitedWalkIsCut(dir.entries, path, depth, o, levels);
      }
    }
  }

  /** Under a ceiling of `m` entries a directory, no file of these entries is lost: whatever a listing
      leaves out holds no file, in this directory (`room` entries left) and in every directory listed. */
  predicate LosesNothing(entries: seq<Entry>, room: nat, m: nat, contract: Contract)
    decreases entries
  {
    if entries == [] then true
    else if Hidden(entries[0], contract) then LosesNothing(entries[1..], room, m, contract)
    else if room == 0 then CountFiles(entries, contract) == 0
    else
      && (entries[0].Dir? && entries[0].readable ==> LosesNothing(entries[0].entries, m, m, contract))
      && LosesNothing(entries[1..], room - 1, m, contract)
  }

  /** A ceiling never adds files, and where it loses none the count is right at every depth. */
  lemma {:induction false} CeilingCounts(entries: seq<Entry>, path: string, depth: nat, room: nat, m: nat, o: Options)
    requires o.countFiles && o.maxEntries == Some(m)
    ensures var files := WalkEntries(entries, path, depth, Some(room), o).files;
            && files <= CountFiles(entries, o.contract)
            && (LosesNothing(entries, room, m, o.contract) ==> files == CountFiles(entries, o.contract))
            && (o.maxDepth.None? && !LosesNothing(entries, room, m, o.contract) ==> files < CountFiles(entries, o.contract))
    decreases entries
  {
    if entries != [] {
      var e := entries[0];
      if Hidden(e, o.contract) {
        CeilingCounts(entries[1..], path, depth, room, m, o);
      } else if room > 0 {
        CeilingCounts(entries[1..], path, depth, room - 1, m, o);
        if e.Dir? {
          CeilingCounts(e.entries, ChildPath(path, e.name), depth + 1, m, m, o);
        }
      }
    }
  }

  /** With an entry ceiling, the count a directory carries is the same for every depth of the walk, and the
      right one, if and only if no listing below it leaves a file out. */
  lemma CeilingKeepsCountsIff(dir: Entry, path: string, depth: nat, m: nat, contract: Contract)
    requires dir.Dir? && dir.readable
    ensures (forall maxDepth: Option<nat> ::
               Walk(dir, path, depth, Options(maxDepth, Some(m), true, contract)).files == CountFilesUnder(dir, contract))
            <==> LosesNothing(dir.entries, m, m, contract)
  {
    forall maxDepth: Option<nat>
      ensures LosesNothing(dir.entries, m, m, contract) ==>
                Walk(dir, path, depth, Options(maxDepth, Some(m), true, contract)).files == CountFilesUnder(dir, contract)
    {
      CeilingCounts(dir.entries, path, depth, m, m, Options(maxDepth, Some(m), true, contract));
    }
    var full := Options(None, Some(m), true, contract);
    CeilingCounts(dir.entries, path, depth, m, m, full);
    assert Walk(dir, path, depth, full).files == WalkEntries(dir.entries, path, depth, Some(m), full).files;
  }

  /** A directory of two files, listed one entry a directory, carries two in a listing that stops above it
      and one in a listing that shows it. */
  lemma CeilingChangesCounts()
    ensures var root := Dir("r", true, [Dir("d", true, [File("a"), File("b")])]);
            && BuildTree(root, Options(Some(1), Some(1), true, IGNORE_CONTRACT)).nodes
               == [DirNode("d", "d", [], Some(2), false)]
            && BuildTree(root, Options(Some(2), Some(1), true, IGNORE_CONTRACT)).nodes
               == [DirNode("d", "d", [FileNode("a", "d/a")], Some(1), true)]
  {
    var d := Dir("d", true, [File("a"), File("b")]);
    assert [d][1..] == [];
    TwoFilesOneListed();
  }

  lemma TwoFilesOneListed()
    ensures var d := Dir("d", true, [File("a"), File("b")]);
            && !Hidden(d, IGNORE_CONTRACT)
            && Walk(d, "d", 1, Options(Some(1), Some(1), true, IGNORE_CONTRACT)) == Walked([], 2, false, false)
            && Walk(d, "d", 1, Options(Some(2), Some(1), true, IGNORE_CONTRACT))
               == Walked([FileNode("a", "d/a")], 1, true, true)
  {
    var a, b := File("a"), File("b");
    var two := Options(Some(2), Some(1), true, IGNORE_CONTRACT);
    assert [a, b][1..] == [b] && [b][1..] == [];
    NotIgnored("a");
    NotIgnored("b");
    assert CountFiles([b], IGNORE_CONTRACT) == 1;
    assert ChildPath("d", "a") == "d/a";
    assert WalkEntries([b], "d", 1, Some(0), two) == Walked([], 0, true, true);
    assert WalkEntries([a, b], "d", 1, Some(1), two) == Walked([FileNode("a", "d/a")], 1, true, true);
  }

  lemma NotIgnored(name: string)
    requires |name| == 1
    ensures IgnoreRuleFor(name, false, IGNORE_CONTRACT).None?
  {
    assert IGNORE_CONTRACT.fileSuffixes[1..] == [".pyo"];
    assert [".pyo"][1..] == [];
  }

  // ---------------------------------------------------------------------------------------------
  // Truncation.

  predicate AnyFlag(nodes: seq<TreeNode>)
    decreases nodes
  {
    nodes != [] && ((nodes[0].DirNode? && (nodes[0].truncated || AnyFlag(nodes[0].children))) || AnyFlag(nodes[1..]))
  }

  /** The aggregate says exactly that the root or some listed directory was cut, and each flag stands on
      the directory whose own listing stopped. */
  lemma {:induction false} TruncatedIffFlagged(entries: seq<Entry>, path: string, depth: nat, room: Option<nat>, o: Options)
    ensures var w := WalkEntries(entries, path, depth, room, o);
            && (w.truncated <==> w.cut || AnyFlag(w.nodes))
            && (w.cut <==> room.Some? && |VisibleFrom(entries, o.contract)| > room.value)
    decreases entries
  {
    if entries != [] {
      var e := entries[0];
      if Hidden(e, o.contract) {
        TruncatedIffFlagged(entries[1..], path, depth, room, o);
      } else if room != Some(0) {
        var left := if room.Some? then Some(room.value - 1) else None;
        TruncatedIffFlagged(entries[1..], path, depth, left, o);
        var rest := WalkEntries(entries[1..], path, depth, left, o);
        assert WalkEntries(entries, path, depth, room, o).nodes[1..] == rest.nodes;
        if e.Dir? {
          TruncatedIffFlagged(e.entries, ChildPath(path, e.name), depth + 1, o.maxEntries, o);
        }
      }
    }
  }

  /** The visible entries, read from the front. */
  function VisibleFrom(entries: seq<Entry>, contract: Contract): seq<Entry> {
    if entries == [] then []
    else (if Hidden(entries[0], contract) then [] else [entries[0]]) + VisibleFrom(entries[1..], contract)
  }

  /** Both directions of reading see the same entries. */
  lemma {:induction false} VisibleFromFront(entries: seq<Entry>, n: nat, contract: Contract)
    requires n <= |entries|
    ensures Visible(entries[..n], contract) + VisibleFrom(entries[n..], contract) == Visible(entries, contract)
    decreases |entries| - n
  {
    if n < |entries| {
      VisibleFromFront(entries, n + 1, contract);
      assert entries[..n + 1][..n] == entries[..n];
      assert entries[n..][1..] == entries[n + 1..];
    } else {
      assert entries[..n] == entries && entries[n..] == [];
    }
  }
}
