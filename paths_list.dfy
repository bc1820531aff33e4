/**
  * A tool installation's search paths: an ordered list of path strings with an
  * optional home directory and optional path-list and directory separators.
  * `Snapshot` is the value a `PathsList` object holds at one moment; the pure
  * functions over snapshots specify what the object's methods do.
  */
module CustomTools {
  import opened Wrappers
  import opened Rendering

  /** The four fields of a PathsList; `None` stands for a null reference. */
  datatype Snapshot = Snapshot(
    paths: seq<string>,
    homeDir: Option<string>,
    pathSeparator: Option<string>,
    separator: Option<string>)

  /** What Java's string concatenation writes for a possibly-null string: "null" for null. */
  function NullText(s: Option<string>): string
  {
    if s.Some? then s.value else "null"
  }

  /** The entry that merging contributes for the other list's home directory. */
  function HomeEntry(home: Option<string>): seq<string>
  {
    if home.Some? then [home.value] else []
  }

  /** One-way fill of an absent field from the other list. */
  function Fill(mine: Option<string>, theirs: Option<string>): Option<string>
  {
    if mine.None? then theirs else mine
  }

  /**
    * The state after merging `b` into `a`: absent separators are filled from
    * `b`, `b`'s home directory becomes an ordinary entry, then `b`'s entries
    * follow, and `a`'s own home directory is kept.
    */
  function Merge(a: Snapshot, b: Snapshot): Snapshot
  {
    Snapshot(a.paths + HomeEntry(b.homeDir) + b.paths, a.homeDir,
             Fill(a.pathSeparator, b.pathSeparator), Fill(a.separator, b.separator))
  }

  /** What a merge keeps, fills in and appends, field by field. */
  lemma MergeFields(a: Snapshot, b: Snapshot)
    ensures Merge(a, b).homeDir == a.homeDir
    ensures a.pathSeparator.Some? ==> Merge(a, b).pathSeparator == a.pathSeparator
    ensures a.pathSeparator.None? ==> Merge(a, b).pathSeparator == b.pathSeparator
    ensures a.separator.Some? ==> Merge(a, b).separator == a.separator
    ensures a.separator.None? ==> Merge(a, b).separator == b.separator
    ensures |Merge(a, b).paths| == |a.paths| + (if b.homeDir.Some? then 1 else 0) + |b.paths|
    ensures Merge(a, b).paths[..|a.paths|] == a.paths
    ensures b.homeDir.Some? ==> Merge(a, b).paths[|a.paths|] == b.homeDir.value
    ensures Merge(a, b).paths[|Merge(a, b).paths| - |b.paths|..] == b.paths
  {
  }

  /**
    * How a list looks to the final `addAll` of a merge with itself: its home
    * directory has already been appended to its own entries.
    */
  function Grown(a: Snapshot): Snapshot
  {
    a.(paths := a.paths + HomeEntry(a.homeDir))
  }

  /**
    * The rendered list: absent for no entries, otherwise every entry followed
    * by the path-list separator (written "null" when that is absent).
    */
  function Render(s: Snapshot): (r: Option<string>)
    ensures r.None? <==> s.paths == []
    ensures r.Some? ==>
      |r.value| == TotalLength(s.paths) + |s.paths| * |NullText(s.pathSeparator)|
    ensures r.Some? ==> r.value == Joined(s.paths, NullText(s.pathSeparator)) + NullText(s.pathSeparator)
  {
    if s.paths == [] then None
    else
      var sep := NullText(s.pathSeparator);
      TerminatedLength(s.paths, sep);
      TerminatedIsJoinedPlusSeparator(s.paths, sep);
      Some(Terminated(s.paths, sep))
  }

  /**
    * Rendering a merged list renders the original entries, then the other
    * list's home directory, then its entries, all with the merged separator.
    */
  lemma RenderMerged(a: Snapshot, b: Snapshot)
    requires a.paths != [] || b.homeDir.Some? || b.paths != []
    ensures Render(Merge(a, b)).Some?
    ensures var sep := NullText(Merge(a, b).pathSeparator);
      Render(Merge(a, b)).value
        == Terminated(a.paths, sep) + Terminated(HomeEntry(b.homeDir), sep) + Terminated(b.paths, sep)
  {
    var sep := NullText(Merge(a, b).pathSeparator);
    TerminatedAppend(a.paths + HomeEntry(b.homeDir), b.paths, sep);
    TerminatedAppend(a.paths, HomeEntry(b.homeDir), sep);
  }

  /** Merging a list into itself repeats its entries, home directory included, twice. */
  lemma SelfMergeDoubles(a: Snapshot)
    ensures Merge(a, Grown(a)) == a.(paths := Grown(a).paths + Grown(a).paths)
  {
  }

  /**
    * The legacy return value: merging a list with only a home directory grows
    * the entries even though the other list's own entries are empty, so the
    * merge reports no change.
    */
  lemma HomeOnlyMergeGrows(a: Snapshot, b: Snapshot)
    requires b.paths == [] && b.homeDir.Some?
    ensures Merge(a, b).paths == a.paths + [b.homeDir.value]
    ensures |Merge(a, b).paths| == |a.paths| + 1
  {
  }

  /** The state after merging every list of `bs` into `a`, in order. */
  function MergeAll(a: Snapshot, bs: seq<Snapshot>): Snapshot
    decreases |bs|
  {
    if bs == [] then a else MergeAll(Merge(a, bs[0]), bs[1..])
  }

  /** The first present path-list separator among `a`, then the lists of `bs`. */
  function FirstPathSeparator(a: Snapshot, bs: seq<Snapshot>): Option<string>
    decreases |bs|
  {
    if a.pathSeparator.Some? || bs == [] then a.pathSeparator
    else FirstPathSeparator(bs[0], bs[1..])
  }

  /** The first present directory separator among `a`, then the lists of `bs`. */
  function FirstSeparator(a: Snapshot, bs: seq<Snapshot>): Option<string>
    decreases |bs|
  {
    if a.separator.Some? || bs == [] then a.separator
    else FirstSeparator(bs[0], bs[1..])
  }

  /** Every list's home directory (when present) and entries, list after list. */
  function Contributions(bs: seq<Snapshot>): seq<string>
  {
    if bs == [] then [] else HomeEntry(bs[0].homeDir) + bs[0].paths + Contributions(bs[1..])
  }

  /**
    * Repeated merging: the separators are the first ones present anywhere in
    * merge order, and the home directory is never touched.
    */
  lemma {:induction false} MergeAllFields(a: Snapshot, bs: seq<Snapshot>)
    ensures MergeAll(a, bs).homeDir == a.homeDir
    ensures MergeAll(a, bs).pathSeparator == FirstPathSeparator(a, bs)
    ensures MergeAll(a, bs).separator == FirstSeparator(a, bs)
    decreases |bs|
  {
    if bs != [] {
      MergeAllFields(Merge(a, bs[0]), bs[1..]);
      FirstPresentStep(a, bs);
    }
  }

  /** Repeated merging: the entries are all contributions, in merge order. */
  lemma {:induction false} MergeAllPaths(a: Snapshot, bs: seq<Snapshot>)
    ensures MergeAll(a, bs).paths == a.paths + Contributions(bs)
    decreases |bs|
  {
    if bs != [] {
      var m := Merge(a, bs[0]);
      var c := HomeEntry(bs[0].homeDir) + bs[0].paths;
      assert m.paths == a.paths + c;
      assert Contributions(bs) == c + Contributions(bs[1..]);
      assert MergeAll(a, bs) == MergeAll(m, bs[1..]);
      MergeAllPaths(m, bs[1..]);
    }
  }

  /** One merge step moves the search for the first present separators on by one list. */
  lemma FirstPresentStep(a: Snapshot, bs: seq<Snapshot>)
    requires bs != []
    ensures FirstPathSeparator(Merge(a, bs[0]), bs[1..]) == FirstPathSeparator(a, bs)
    ensures FirstSeparator(Merge(a, bs[0]), bs[1..]) == FirstSeparator(a, bs)
  {
  }

  /** A mutable paths list, updated in place by its `Add` methods. */
  class PathsList {
    var paths: seq<string>
    var homeDir: Option<string>
    var pathSeparator: Option<string>
    var separator: Option<string>

    /** The object's current fields as a value. */
    function Value(): Snapshot
      reads this
    {
      Snapshot(paths, homeDir, pathSeparator, separator)
    }

    /** Stores a copy of `paths` and the three optional fields as given. */
    constructor (paths: seq<string>, pathSeparator: Option<string>, separator: Option<string>,
                 homeDir: Option<string>)
      ensures Value() == Snapshot(paths, homeDir, pathSeparator, separator)
    {
      this.paths := paths;
      this.pathSeparator := pathSeparator;
      this.separator := separator;
      this.homeDir := homeDir;
    }

    /** No entries, and home directory and both separators absent. */
    constructor Empty()
      ensures Value() == Snapshot([], None, None, None)
    {
      paths := [];
      pathSeparator := None;
      separator := None;
      homeDir := None;
    }

    /** Both separators set to the platform's; those are passed in by the caller. */
    constructor WithPlatformSeparators(paths: seq<string>, homeDir: Option<string>,
                                       platformPathSeparator: string, platformSeparator: string)
      ensures Value() == Snapshot(paths, homeDir, Some(platformPathSeparator), Some(platformSeparator))
    {
      this.paths := paths;
      this.pathSeparator := Some(platformPathSeparator);
      this.separator := Some(platformSeparator);
      this.homeDir := homeDir;
    }

    /** The home directory, absent when none was recorded. */
    function GetHomeDir(): (h: Option<string>)
      reads this
      ensures h == Value().homeDir
    {
      homeDir
    }

    /** Appends one entry; always reports a change. */
    method Add(path: string) returns (changed: bool)
      modifies this
      ensures Value() == old(Value()).(paths := old(paths) + [path])
      ensures changed
    {
      paths := paths + [path];
      changed := true;
    }

    /**
      * Merges `other` into this list (see `Merge`). The result is what the
      * final `addAll` reports: whether the other list's entries, as they are
      * at that moment, are non-empty. Merging a list into itself appends its
      * home directory first and then the grown entries.
      */
    method AddList(other: PathsList) returns (changed: bool)
      modifies this
      ensures other != this ==> Value() == Merge(old(Value()), old(other.Value()))
      ensures other != this ==> other.Value() == old(other.Value())
      ensures other != this ==> (changed <==> old(other.paths) != [])
      ensures other == this ==> Value() == Merge(old(Value()), Grown(old(Value())))
      ensures other == this ==> (changed <==> Grown(old(Value())).paths != [])
    {
      if pathSeparator.None? {
        pathSeparator := other.pathSeparator;
      }
      if separator.None? {
        separator := other.separator;
      }
      if other.homeDir.Some? {
        paths := paths + [other.homeDir.value];
      }
      var added := other.paths;
      paths := paths + added;
      changed := added != [];
    }

    /**
      * The entries joined into one string, each followed by the path-list
      * separator; absent when there are no entries.
      */
    method ToListString() returns (r: Option<string>)
      ensures r == Render(Value())
    {
      if paths == [] {
        return None;
      }
      var sep := NullText(pathSeparator);
      var builder := "";
      var i := 0;
      while i < |paths|
        invariant 0 <= i <= |paths|
        invariant builder == Terminated(paths[..i], sep)
      {
        TerminatedSnoc(paths[..i], paths[i], sep);
        assert paths[..i + 1] == paths[..i] + [paths[i]];
        builder := builder + paths[i];
        builder := builder + sep;
        i := i + 1;
      }
      assert paths[..i] == paths;
      r := Some(builder);
    }
  }
}
