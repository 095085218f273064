/** The pure parts of `GitRepo` (src/git.rs): sorting status entries into
    the four change lists, counting them, rendering diff lines, and
    assembling the staged and unstaged diffs into one text. The repository
    itself is an input: the status entries and diff lines git2 would yield. */
module Git {
  import opened Basics
  import opened Text

  // ---- Status ----

  /** The git2 status bits the classification looks at. */
  datatype StatusFlags = StatusFlags(
    wtModified: bool, indexModified: bool,
    wtNew: bool, indexNew: bool,
    wtDeleted: bool, indexDeleted: bool,
    wtRenamed: bool, indexRenamed: bool)

  /** One status entry; `path` is `None` when git2 cannot give it as UTF-8. */
  datatype StatusEntry = StatusEntry(path: Option<string>, flags: StatusFlags)

  datatype ChangeKind = Modified | Added | Deleted | Renamed

  predicate IsModified(f: StatusFlags) { f.wtModified || f.indexModified }
  predicate IsNew(f: StatusFlags) { f.wtNew || f.indexNew }
  predicate IsDeleted(f: StatusFlags) { f.wtDeleted || f.indexDeleted }
  predicate IsRenamed(f: StatusFlags) { f.wtRenamed || f.indexRenamed }

  /** The list an entry goes to: the first of modified, new, deleted,
      renamed whose bit (in the work tree or the index) is set; none when
      no such bit is set. */
  function Classify(f: StatusFlags): (r: Option<ChangeKind>)
    ensures r == Some(Modified) <==> IsModified(f)
    ensures r == Some(Added) <==> !IsModified(f) && IsNew(f)
    ensures r == Some(Deleted) <==> !IsModified(f) && !IsNew(f) && IsDeleted(f)
    ensures r == Some(Renamed) <==> !IsModified(f) && !IsNew(f) && !IsDeleted(f) && IsRenamed(f)
    ensures r == None <==> !IsModified(f) && !IsNew(f) && !IsDeleted(f) && !IsRenamed(f)
  {
    if IsModified(f) then Some(Modified)
    else if IsNew(f) then Some(Added)
    else if IsDeleted(f) then Some(Deleted)
    else if IsRenamed(f) then Some(Renamed)
    else None
  }

  function EntryPath(e: StatusEntry): string {
    match e.path
    case Some(p) => p
    case None => "unknown"
  }

  /** The paths of the entries of kind `k`, in status order. */
  function Bucket(entries: seq<StatusEntry>, k: ChangeKind): seq<string> {
    if entries == [] then []
    else
      var last := entries[|entries| - 1];
      Bucket(entries[..|entries| - 1], k) + (if Classify(last.flags) == Some(k) then [EntryPath(last)] else [])
  }

  /** How many entries no list takes. */
  function Dropped(entries: seq<StatusEntry>): nat {
    if entries == [] then 0
    else Dropped(entries[..|entries| - 1]) + (if Classify(entries[|entries| - 1].flags).None? then 1 else 0)
  }

  datatype GitStatus = GitStatus(
    isClean: bool,
    modifiedFiles: seq<string>,
    newFiles: seq<string>,
    deletedFiles: seq<string>,
    renamedFiles: seq<string>)

  /** The status `get_status` reports for the given entries. */
  function StatusOf(entries: seq<StatusEntry>): GitStatus {
    GitStatus(entries == [], Bucket(entries, Modified), Bucket(entries, Added),
              Bucket(entries, Deleted), Bucket(entries, Renamed))
  }

  /** `get_status`: one pass over the entries, pushing each path onto the
      list its flags select. */
  method GetStatus(entries: seq<StatusEntry>) returns (s: GitStatus)
    ensures s == StatusOf(entries)
  {
    var modified, added, deleted, renamed := [], [], [], [];
    for i := 0 to |entries|
      invariant modified == Bucket(entries[..i], Modified)
      invariant added == Bucket(entries[..i], Added)
      invariant deleted == Bucket(entries[..i], Deleted)
      invariant renamed == Bucket(entries[..i], Renamed)
    {
      assert entries[..i + 1][..i] == entries[..i];
      var e := entries[i];
      var path := match e.path case Some(p) => p case None => "unknown";
      if e.flags.wtModified || e.flags.indexModified {
        modified := modified + [path];
      } else if e.flags.wtNew || e.flags.indexNew {
        added := added + [path];
      } else if e.flags.wtDeleted || e.flags.indexDeleted {
        deleted := deleted + [path];
      } else if e.flags.wtRenamed || e.flags.indexRenamed {
        renamed := renamed + [path];
      }
    }
    assert entries[..|entries|] == entries;
    s := GitStatus(|entries| == 0, modified, added, deleted, renamed);
  }

  /** `total_changes`. */
  function TotalChanges(s: GitStatus): (n: nat)
    ensures n == 0 <==> s.modifiedFiles == [] && s.newFiles == [] && s.deletedFiles == [] && s.renamedFiles == []
  {
    |s.modifiedFiles| + |s.newFiles| + |s.deletedFiles| + |s.renamedFiles|
  }

  lemma {:induction false} BucketAppend(a: seq<StatusEntry>, b: seq<StatusEntry>, k: ChangeKind)
    ensures Bucket(a + b, k) == Bucket(a, k) + Bucket(b, k)
    decreases |b|
  {
    if b == [] {
      assert a + b == a;
    } else {
      var n := |b| - 1;
      assert (a + b)[..|a + b| - 1] == a + b[..n];
      BucketAppend(a, b[..n], k);
    }
  }

  /** Each entry lands in exactly the list its classification names and in
      no other: splitting the entries around it splits every list around
      it, and only its own list holds its path in between. */
  lemma EntryInOneList(entries: seq<StatusEntry>, i: nat, k: ChangeKind)
    requires i < |entries|
    ensures Bucket(entries, k)
            == Bucket(entries[..i], k)
               + (if Classify(entries[i].flags) == Some(k) then [EntryPath(entries[i])] else [])
               + Bucket(entries[i + 1..], k)
  {
    assert entries == entries[..i + 1] + entries[i + 1..];
    BucketAppend(entries[..i + 1], entries[i + 1..], k);
    assert entries[..i + 1][..i] == entries[..i];
  }

  /** The four lists partition the classified entries: their lengths and
      the dropped entries add up to the number of entries. */
  lemma {:induction false} TotalChangesPartition(entries: seq<StatusEntry>)
    ensures TotalChanges(StatusOf(entries)) + Dropped(entries) == |entries|
  {
    if entries != [] {
      TotalChangesPartition(entries[..|entries| - 1]);
    }
  }

  /** A clean status lists no change; the converse fails, because a status
      of unclassified entries is not clean yet lists nothing. */
  lemma CleanListsNothing(entries: seq<StatusEntry>)
    ensures StatusOf(entries).isClean ==> TotalChanges(StatusOf(entries)) == 0
    ensures TotalChanges(StatusOf(entries)) == 0 && !StatusOf(entries).isClean <==>
              entries != [] && Dropped(entries) == |entries|
  {
    TotalChangesPartition(entries);
  }

  /** The smallest such status: one entry with none of the eight bits. */
  lemma DirtyWithoutChanges()
    ensures var s := StatusOf([StatusEntry(Some("a"), StatusFlags(false, false, false, false, false, false, false, false))]);
            !s.isClean && TotalChanges(s) == 0
  {
    var e := StatusEntry(Some("a"), StatusFlags(false, false, false, false, false, false, false, false));
    assert [e][..0] == [];
  }

  /** A file both modified and new (or deleted, or renamed) is listed only
      as modified. */
  lemma ModifiedTakesPriority(f: StatusFlags)
    requires IsModified(f)
    ensures Classify(f) == Some(Modified)
    ensures Classify(f) != Some(Added) && Classify(f) != Some(Deleted) && Classify(f) != Some(Renamed)
  {
  }

  // ---- Diff lines ----

  /** git2's `DiffLineType`. */
  datatype LineOrigin =
    | Context | Addition | Deletion
    | ContextEofnl | AddEofnl | DeleteEofnl
    | FileHeader | HunkHeader | Binary

  /** One diff line; `content` is `None` when its bytes are not UTF-8. */
  datatype DiffLine = DiffLine(origin: LineOrigin, content: Option<string>)

  /** The one-character marker of an added, deleted or context line; every
      other origin gets none. */
  function Marker(o: LineOrigin): (m: string)
    ensures |m| <= 1
    ensures m == [] <==> !(o.Addition? || o.Deletion? || o.Context?)
    ensures o.Addition? ==> m == "+"
    ensures o.Deletion? ==> m == "-"
    ensures o.Context? ==> m == " "
  {
    match o
    case Addition => "+"
    case Deletion => "-"
    case Context => " "
    case _ => ""
  }

  /** Content that is not UTF-8 is printed as nothing. */
  function LineText(l: DiffLine): string {
    match l.content
    case Some(t) => t
    case None => ""
  }

  function RenderLine(l: DiffLine): string {
    Marker(l.origin) + LineText(l)
  }

  function RenderDiff(lines: seq<DiffLine>): string {
    if lines == [] then []
    else RenderDiff(lines[..|lines| - 1]) + RenderLine(lines[|lines| - 1])
  }

  /** The text `get_diff` prints for the lines git2 yields. */
  method GetDiff(lines: seq<DiffLine>) returns (text: string)
    ensures text == RenderDiff(lines)
  {
    text := "";
    for i := 0 to |lines|
      invariant text == RenderDiff(lines[..i])
    {
      assert lines[..i + 1][..i] == lines[..i];
      var prefix := match lines[i].origin
                    case Addition => "+"
                    case Deletion => "-"
                    case Context => " "
                    case _ => "";
      var content := match lines[i].content case Some(t) => t case None => "";
      text := text + (prefix + content);
    }
    assert lines[..|lines|] == lines;
  }

  /** A rendered added, deleted or context line gives back both its origin
      and its text. */
  lemma MarkedLineDecodes(l1: DiffLine, l2: DiffLine)
    requires l1.origin in {Addition, Deletion, Context}
    requires l2.origin in {Addition, Deletion, Context}
    requires RenderLine(l1) == RenderLine(l2)
    ensures l1.origin == l2.origin
    ensures LineText(l1) == LineText(l2)
  {
    assert RenderLine(l1)[0] == RenderLine(l2)[0];
    assert LineText(l1) == RenderLine(l1)[1..];
    assert LineText(l2) == RenderLine(l2)[1..];
  }

  /** The rendered diff is empty exactly when no line contributes a
      character: only unmarked lines with empty or non-UTF-8 content. */
  lemma {:induction false} EmptyDiffIff(lines: seq<DiffLine>)
    ensures RenderDiff(lines) == [] <==>
              forall i :: 0 <= i < |lines| ==> Marker(lines[i].origin) == [] && LineText(lines[i]) == []
  {
    if lines != [] {
      var n := |lines| - 1;
      EmptyDiffIff(lines[..n]);
      assert forall i :: 0 <= i < n ==> lines[..n][i] == lines[i];
    }
  }

  // ---- The combined diff ----

  const StagedHeader := "=== STAGED CHANGES ===\n\n"
  const UnstagedHeader := "=== UNSTAGED CHANGES ===\n\n"
  const SectionBreak := "\n\n"

  function Section(header: string, diff: string): string {
    if diff == [] then [] else header + diff
  }

  /** `get_combined_diff`: the staged section, then the unstaged one, a
      blank line between them only when both are present. */
  function CombinedDiff(staged: string, unstaged: string): (r: string)
    ensures r == [] <==> staged == [] && unstaged == []
    ensures IsPrefix(Section(StagedHeader, staged), r)
    ensures IsSuffix(Section(UnstagedHeader, unstaged), r)
    ensures |r| == |Section(StagedHeader, staged)| + |Section(UnstagedHeader, unstaged)|
                   + (if staged != [] && unstaged != [] then |SectionBreak| else 0)
  {
    var first := Section(StagedHeader, staged);
    var gap := if first != [] && unstaged != [] then SectionBreak else [];
    first + gap + Section(UnstagedHeader, unstaged)
  }

  /** The same assembly written as the source writes it, by appending. */
  method GetCombinedDiff(staged: string, unstaged: string) returns (combined: string)
    ensures combined == CombinedDiff(staged, unstaged)
  {
    combined := "";
    if |staged| != 0 {
      combined := combined + StagedHeader;
      combined := combined + staged;
    }
    if |unstaged| != 0 {
      if |combined| != 0 {
        combined := combined + SectionBreak;
      }
      combined := combined + UnstagedHeader;
      combined := combined + unstaged;
    }
  }

  /** Both diffs can be read back from the combined text once the length
      of the staged one is known. */
  lemma CombinedDiffSplits(staged: string, unstaged: string)
    ensures staged != [] ==>
              CombinedDiff(staged, unstaged)[|StagedHeader|..|StagedHeader| + |staged|] == staged
    ensures unstaged != [] ==>
              CombinedDiff(staged, unstaged)[|CombinedDiff(staged, unstaged)| - |unstaged|..] == unstaged
    ensures staged != [] && unstaged != [] ==>
              CombinedDiff(staged, unstaged)[|StagedHeader| + |staged|..|StagedHeader| + |staged| + |SectionBreak|] == SectionBreak
  {
    var r := CombinedDiff(staged, unstaged);
    if staged != [] {
      assert r[..|StagedHeader| + |staged|] == StagedHeader + staged;
      assert r[|StagedHeader|..|StagedHeader| + |staged|] == (StagedHeader + staged)[|StagedHeader|..];
    }
    if staged != [] && unstaged != [] {
      assert r == StagedHeader + staged + SectionBreak + UnstagedHeader + unstaged;
    }
  }
}
