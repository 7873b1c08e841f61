/**
  Card metadata: the ordered list of wallet indexes of keycard-go's types.Metadata, the bytes it is stored as, and how
  `ToMetadata` (internal/utils.go) shows it.
 */
module Metadatas {
  import opened Wrappers
  import opened Paths
  import Hex

  datatype BuildError = BadPath(error: PathError) | NameTooLong

  /** Metadata as the card keeps it: a name and an ordered list of child indexes. */
  datatype CardMetadata = CardMetadata(name: Hex.bytes, paths: seq<uint32>)

  /** Metadata as clients see it. */
  datatype Metadata = Metadata(name: string, wallets: seq<string>)

  predicate StrictlyAscending(s: seq<uint32>) {
    forall i, j :: 0 <= i < j < |s| ==> s[i] < s[j]
  }

  /** insertOrderedNoDups: walks back from the end of the list to the insertion point. */
  function Insert(list: seq<uint32>, p: uint32): seq<uint32> {
    if list == [] then [p]
    else
      var last := list[|list| - 1];
      if p > last then list + [p]
      else if p == last then list
      else Insert(list[..|list| - 1], p) + [last]
  }

  lemma {:induction false} InsertMembers(list: seq<uint32>, p: uint32)
    ensures forall q :: q in Insert(list, p) <==> q == p || q in list
  {
    if list == [] || p >= list[|list| - 1] {
    } else {
      InsertMembers(list[..|list| - 1], p);
      assert list == list[..|list| - 1] + [list[|list| - 1]];
    }
  }

  lemma {:induction false} InsertOrdered(list: seq<uint32>, p: uint32)
    requires StrictlyAscending(list)
    ensures StrictlyAscending(Insert(list, p))
  {
    if list == [] || p >= list[|list| - 1] {
    } else {
      var front, last := list[..|list| - 1], list[|list| - 1];
      InsertOrdered(front, p);
      InsertMembers(front, p);
      forall i | 0 <= i < |Insert(front, p)| ensures Insert(front, p)[i] < last {
        assert Insert(front, p)[i] in Insert(front, p);
      }
    }
  }

  function InsertAll(list: seq<uint32>, ps: seq<uint32>): seq<uint32>
    decreases |ps|
  {
    if ps == [] then list else InsertAll(Insert(list, ps[0]), ps[1..])
  }

  lemma {:induction false} InsertAllOrdered(list: seq<uint32>, ps: seq<uint32>)
    requires StrictlyAscending(list)
    ensures StrictlyAscending(InsertAll(list, ps))
    ensures forall q :: q in InsertAll(list, ps) <==> q in list || q in ps
    decreases |ps|
  {
    if ps == [] {
    } else {
      InsertOrdered(list, ps[0]);
      InsertMembers(list, ps[0]);
      InsertAllOrdered(Insert(list, ps[0]), ps[1..]);
      assert forall q :: q in ps <==> q == ps[0] || q in ps[1..];
    }
  }

  function NewMetadata(name: string, ps: seq<uint32>): Result<CardMetadata, BuildError> {
    if |name| > 20 then Err(NameTooLong) else Ok(CardMetadata(Hex.Bytes(name), InsertAll([], ps)))
  }

  function View(m: CardMetadata): Metadata {
    Metadata(Hex.Text(m.name), WalletPaths(m.paths))
  }

  /** What both `StoreMetadata` commands send to the card for a name and a list of path texts. */
  function BuildMetadata(name: string, paths: seq<string>): Result<CardMetadata, BuildError> {
    match ParsePaths(paths)
    case Err(e) => Err(BadPath(e))
    case Ok(ps) => NewMetadata(name, ps)
  }

  // ---------------------------------------------------------------------------------------------
  // The stored form: a header byte, the name, and a start and a length for every run of indexes
  // ---------------------------------------------------------------------------------------------

  /** The indexes start, start + 1, ..., start + more. */
  datatype Run = Run(start: uint32, more: uint32)

  /** Serialize's loop: a run grows while the next index is its successor. */
  function RunsFrom(run: Run, paths: seq<uint32>): seq<Run>
    decreases |paths|
  {
    if paths == [] then [run]
    else if paths[0] == (run.start + run.more + 1) % 0x1_0000_0000 then
      RunsFrom(Run(run.start, (run.more + 1) % 0x1_0000_0000), paths[1..])
    else [run] + RunsFrom(Run(paths[0], 0), paths[1..])
  }

  function Runs(paths: seq<uint32>): seq<Run> {
    if paths == [] then [] else RunsFrom(Run(paths[0], 0), paths[1..])
  }

  function BigEndian(n: nat, width: nat): (b: Hex.bytes)
    ensures |b| == width
  {
    if width == 0 then [] else BigEndian(n / 256, width - 1) + [(n % 256) as Hex.byte]
  }

  function Value(b: Hex.bytes): nat {
    if b == [] then 0 else 256 * Value(b[..|b| - 1]) + b[|b| - 1] as nat
  }

  /** apdu.WriteLength: up to four bytes are written. */
  function WriteLength(n: uint32): (b: Hex.bytes)
    ensures b != []
  {
    if n < 0x80 then [n as Hex.byte]
    else if n < 0x100 then [0x81] + BigEndian(n, 1)
    else if n < 0x1_0000 then [0x82] + BigEndian(n, 2)
    else if n < 0x100_0000 then [0x83] + BigEndian(n, 3)
    else [0x84] + BigEndian(n, 4)
  }

  datatype Length = Length(value: nat, rest: Hex.bytes) | EndOfData | BadLength

  /** apdu.ParseLength: up to three bytes are read; bytes missing at the end of the data count as 0. */
  function ParseLength(data: Hex.bytes): (r: Length)
    ensures r.Length? ==> r.value < 0x100_0000 && |r.rest| < |data|
  {
    if data == [] then EndOfData
    else if data[0] < 0x80 then Length(data[0] as nat, data[1..])
    else if data[0] == 0x80 || data[0] > 0x83 then BadLength
    else if |data| == 1 then EndOfData
    else
      var size := data[0] as nat - 0x80;
      var there := if |data| - 1 < size then |data| - 1 else size;
      var digits := data[1..1 + there] + seq(size - there, i requires 0 <= i < size - there => 0 as Hex.byte);
      ValueBound(digits);
      Length(Value(digits), data[1 + there..])
  }

  lemma {:induction false} ValueBound(b: Hex.bytes)
    ensures |b| == 1 ==> Value(b) < 0x100
    ensures |b| == 2 ==> Value(b) < 0x1_0000
    ensures |b| == 3 ==> Value(b) < 0x100_0000
  {
    if 1 <= |b| <= 3 {
      ValueBound(b[..|b| - 1]);
    }
  }

  function Written(runs: seq<Run>): Hex.bytes {
    if runs == [] then []
    else WriteLength(runs[0].start) + WriteLength(runs[0].more) + Written(runs[1..])
  }

  /** Serialize, for the names that `SetName` admits. */
  function Serialized(m: CardMetadata): Hex.bytes {
    [((0x20 + |m.name|) % 256) as Hex.byte] + m.name + Written(Runs(m.paths))
  }

  /** `NoData` is Go's io.EOF. */
  datatype ReadError = NoData | InvalidVersion | InvalidLength

  function Indexes(run: Run): seq<uint32>
    requires run.start + run.more < 0x1_0000_0000
  {
    seq(run.more + 1, i requires 0 <= i < run.more + 1 => run.start + i)
  }

  function ParseRuns(data: Hex.bytes, list: seq<uint32>): Result<seq<uint32>, ReadError>
    decreases |data|
  {
    match ParseLength(data)
    case EndOfData => Ok(list)
    case BadLength => Err(InvalidLength)
    case Length(start, rest) =>
      match ParseLength(rest)
      case EndOfData => Err(NoData)
      case BadLength => Err(InvalidLength)
      case Length(more, others) => ParseRuns(others, InsertAll(list, Indexes(Run(start, more))))
  }

  function ParseMetadata(data: Hex.bytes): Result<CardMetadata, ReadError> {
    if data == [] then Err(NoData)
    else if data[0] / 32 != 1 then Err(InvalidVersion)
    else
      var size := data[0] as nat % 32;
      var end := if |data| < 1 + size then |data| else 1 + size;
      match ParseRuns(data[end..], [])
      case Err(e) => Err(e)
      case Ok(paths) => Ok(CardMetadata(data[1..end], paths))
  }

  /** Serialize. */
  method Serialize(m: CardMetadata) returns (data: Hex.bytes)
    ensures data == Serialized(m)
  {
    hide WriteLength, Written;
    data := [((0x20 + |m.name|) % 256) as Hex.byte] + m.name;
    if m.paths == [] {
      assert Written([]) == [] by { NothingWritten(); }
      return;
    }
    var run := Run(m.paths[0], 0);
    for i := 1 to |m.paths|
      invariant data + Written(RunsFrom(run, m.paths[i..])) == Serialized(m)
    {
      var w, rest := m.paths[i], m.paths[i + 1..];
      assert m.paths[i..] == [w] + rest;
      if w == (run.start + run.more + 1) % 0x1_0000_0000 {
        run := Run(run.start, (run.more + 1) % 0x1_0000_0000);
      } else {
        WrittenAfter(data, run, RunsFrom(Run(w, 0), rest));
        data := data + WriteLength(run.start) + WriteLength(run.more);
        run := Run(w, 0);
      }
    }
    WrittenAfter(data, run, []);
    NothingWritten();
    data := data + WriteLength(run.start) + WriteLength(run.more);
  }

  lemma NothingWritten()
    ensures Written([]) == []
  {
  }

  /** ParseMetadata. */
  method Parse(data: Hex.bytes) returns (r: Result<CardMetadata, ReadError>)
    ensures r == ParseMetadata(data)
  {
    if data == [] {
      return Err(NoData);
    }
    if data[0] / 32 != 1 {
      return Err(InvalidVersion);
    }
    var size := data[0] as nat % 32;
    var end := if |data| < 1 + size then |data| else 1 + size;
    var buffer, list := data[end..], [];
    while true
      invariant ParseRuns(buffer, list) == ParseRuns(data[end..], [])
      decreases |buffer|
    {
      var start := ParseLength(buffer);
      match start {
        case EndOfData => return Ok(CardMetadata(data[1..end], list));
        case BadLength => return Err(InvalidLength);
        case Length(first, rest) =>
          var count := ParseLength(rest);
          match count {
            case EndOfData => return Err(NoData);
            case BadLength => return Err(InvalidLength);
            case Length(more, others) =>
              list := InsertRun(list, Run(first, more));
              buffer := others;
          }
      }
    }
  }

  /** The inner loop of ParseMetadata: one index of the run after the other. */
  method InsertRun(list: seq<uint32>, run: Run) returns (longer: seq<uint32>)
    requires run.start + run.more < 0x1_0000_0000
    ensures longer == InsertAll(list, Indexes(run))
  {
    longer := list;
    for i := 0 to run.more + 1
      invariant longer == InsertAll(list, Indexes(run)[..i])
    {
      InsertAllAppend(list, Indexes(run)[..i], [run.start + i]);
      assert Indexes(run)[..i + 1] == Indexes(run)[..i] + [run.start + i];
      longer := Insert(longer, run.start + i);
    }
    assert Indexes(run)[..run.more + 1] == Indexes(run);
  }

  lemma WrittenAfter(data: Hex.bytes, run: Run, runs: seq<Run>)
    ensures data + Written([run] + runs) == (data + WriteLength(run.start) + WriteLength(run.more)) + Written(runs)
    ensures [run] + [] == [run]
  {
    assert ([run] + runs)[1..] == runs;
  }

  // ---------------------------------------------------------------------------------------------
  // Reading back what was stored
  // ---------------------------------------------------------------------------------------------

  /** A length survives exactly when it fits the three bytes that are read. */
  lemma LengthReadBackIff(n: uint32, rest: Hex.bytes)
    ensures ParseLength(WriteLength(n) + rest) == if n < 0x100_0000 then Length(n, rest) else BadLength
  {
    var data := WriteLength(n) + rest;
    var width := |WriteLength(n)| - 1;
    if 0x80 <= n < 0x100_0000 {
      assert data[1..1 + width] == BigEndian(n, width) && data[1 + width..] == rest;
      assert data[1..1 + width] + [] == BigEndian(n, width);
      ValueOfBigEndian(n, width);
    } else if n < 0x80 {
      assert data[1..] == rest;
    }
  }

  lemma ValueOfBigEndian(n: nat, width: nat)
    requires (width == 1 && n < 0x100) || (width == 2 && n < 0x1_0000) || (width == 3 && n < 0x100_0000)
    ensures Value(BigEndian(n, width)) == n
  {
    assert BigEndian(n, width)[..width - 1] == BigEndian(n / 256, width - 1);
    if width <= 1 {
    } else {
      ValueOfBigEndian(n / 256, width - 1);
    }
  }

  predicate Small(run: Run) {
    run.start < 0x100_0000 && run.more < 0x100_0000
  }

  predicate AllSmall(runs: seq<Run>) {
    forall i :: 0 <= i < |runs| ==> Small(runs[i])
  }

  function Expanded(runs: seq<Run>): seq<uint32>
    requires AllSmall(runs)
  {
    if runs == [] then [] else Indexes(runs[0]) + Expanded(runs[1..])
  }

  /** The runs are read back up to the first that does not fit. */
  lemma {:induction false} RunsReadBackIff(runs: seq<Run>, list: seq<uint32>)
    ensures ParseRuns(Written(runs), list) ==
      if AllSmall(runs) then Ok(InsertAll(list, Expanded(runs))) else Err(InvalidLength)
    decreases |runs|
  {
    if runs != [] {
      var run, others := runs[0], runs[1..];
      var tail := WriteLength(run.more) + Written(others);
      assert Written(runs) == WriteLength(run.start) + tail;
      LengthReadBackIff(run.start, tail);
      LengthReadBackIff(run.more, Written(others));
      assert forall i :: 1 <= i < |runs| ==> runs[i] == others[i - 1];
      if Small(run) {
        RunsReadBackIff(others, InsertAll(list, Indexes(run)));
        if AllSmall(others) {
          InsertAllAppend(list, Indexes(run), Expanded(others));
          assert AllSmall(runs);
        } else {
          var i :| 0 <= i < |others| && !Small(others[i]);
          assert !Small(runs[i + 1]);
        }
      }
    }
  }

  lemma {:induction false} InsertAllAppend(list: seq<uint32>, ps: seq<uint32>, qs: seq<uint32>)
    ensures InsertAll(list, ps + qs) == InsertAll(InsertAll(list, ps), qs)
    decreases |ps|
  {
    if ps == [] {
      assert ps + qs == qs;
    } else {
      assert (ps + qs)[1..] == ps[1..] + qs;
      InsertAllAppend(Insert(list, ps[0]), ps[1..], qs);
    }
  }

  /** An ascending list is the expansion of its runs. */
  lemma {:induction false} ExpandedRuns(run: Run, paths: seq<uint32>)
    requires run.start + run.more < 0x1_0000_0000
    requires StrictlyAscending(paths) && (paths != [] ==> run.start + run.more < paths[0])
    requires AllSmall(RunsFrom(run, paths))
    ensures Expanded(RunsFrom(run, paths)) == Indexes(run) + paths
    decreases |paths|
  {
    if paths != [] {
      var p, others := paths[0], paths[1..];
      if p == run.start + run.more + 1 {
        var longer := Run(run.start, run.more + 1);
        ExpandedRuns(longer, others);
        assert Indexes(longer) == Indexes(run) + [p];
        assert Indexes(run) + [p] + others == Indexes(run) + paths;
      } else {
        var runs := RunsFrom(Run(p, 0), others);
        assert RunsFrom(run, paths)[1..] == runs;
        assert forall i :: 0 <= i < |runs| ==> runs[i] == RunsFrom(run, paths)[i + 1];
        ExpandedRuns(Run(p, 0), others);
        assert Indexes(Run(p, 0)) + others == paths;
      }
    } else {
      assert Indexes(run) + [] == Indexes(run);
      assert Expanded([run]) == Indexes(run) + Expanded([run][1..]);
    }
  }

  lemma {:induction false} InsertAllAscending(list: seq<uint32>, ps: seq<uint32>)
    requires StrictlyAscending(list + ps)
    ensures InsertAll(list, ps) == list + ps
    decreases |ps|
  {
    if ps != [] {
      assert list + ps == (list + [ps[0]]) + ps[1..];
      assert list != [] ==> list[|list| - 1] == (list + ps)[|list| - 1] < (list + ps)[|list|] == ps[0];
      assert Insert(list, ps[0]) == list + [ps[0]];
      InsertAllAscending(list + [ps[0]], ps[1..]);
    } else {
      assert list + ps == list;
    }
  }

  /**
    What is stored can be read back exactly when every run of consecutive indexes starts below 2^24 and spans fewer
    than 2^24 steps; otherwise reading it back fails.
   */
  lemma StoredIsReadBackIff(m: CardMetadata)
    requires |m.name| <= 20 && StrictlyAscending(m.paths)
    ensures ParseMetadata(Serialized(m)) == if AllSmall(Runs(m.paths)) then Ok(m) else Err(InvalidLength)
  {
    RunsReadBackIff(Runs(m.paths), []);
    if AllSmall(Runs(m.paths)) {
      PathsReadBack(m.paths);
    }
    hide Written, Runs, ParseRuns, AllSmall, Expanded, InsertAll;
    var data, n := Serialized(m), |m.name|;
    assert data[0] as int == 0x20 + n;
    assert data[1..1 + n] == m.name && data[1 + n..] == Written(Runs(m.paths));
  }

  lemma PathsReadBack(paths: seq<uint32>)
    requires StrictlyAscending(paths) && AllSmall(Runs(paths))
    ensures InsertAll([], Expanded(Runs(paths))) == paths
  {
    if paths != [] {
      ExpandedRuns(Run(paths[0], 0), paths[1..]);
      assert Indexes(Run(paths[0], 0)) + paths[1..] == paths;
    }
    assert [] + paths == paths;
    InsertAllAscending([], paths);
  }

  /** For what `NewMetadata` admits: whatever can be read back is what was stored. */
  lemma BuiltIsReadBackIff(name: string, ps: seq<uint32>)
    ensures NewMetadata(name, ps).Ok? ==>
      var m := NewMetadata(name, ps).value;
      && Serialized(m) != []
      && ParseMetadata(Serialized(m)) == if AllSmall(Runs(m.paths)) then Ok(m) else Err(InvalidLength)
  {
    InsertAllOrdered([], ps);
    if NewMetadata(name, ps).Ok? {
      StoredIsReadBackIff(NewMetadata(name, ps).value);
    }
  }

  /** Indexes that can be read at all are never hardened. */
  lemma {:induction false} ReadIndexesAreSmall(data: Hex.bytes, list: seq<uint32>)
    requires forall p :: p in list ==> p < 0x200_0000
    ensures ParseRuns(data, list).Ok? ==> forall p :: p in ParseRuns(data, list).value ==> p < 0x200_0000
    decreases |data|
  {
    var first := ParseLength(data);
    if first.Length? {
      var second := ParseLength(first.rest);
      if second.Length? {
        var run := Run(first.value, second.value);
        InsertAllMembers(list, Indexes(run));
        ReadIndexesAreSmall(second.rest, InsertAll(list, Indexes(run)));
      }
    }
  }

  lemma ParsedIndexesAreSmall(data: Hex.bytes)
    requires ParseMetadata(data).Ok?
    ensures forall p :: p in ParseMetadata(data).value.paths ==> p < 0x200_0000
  {
    var size := data[0] as nat % 32;
    ReadIndexesAreSmall(data[if |data| < 1 + size then |data| else 1 + size..], []);
  }

  lemma {:induction false} InsertAllMembers(list: seq<uint32>, ps: seq<uint32>)
    ensures forall q :: q in InsertAll(list, ps) <==> q in list || q in ps
    decreases |ps|
  {
    if ps == [] {
    } else {
      InsertMembers(list, ps[0]);
      InsertAllMembers(Insert(list, ps[0]), ps[1..]);
      assert forall q :: q in ps <==> q == ps[0] || q in ps[1..];
    }
  }

  /**
    Paths that name unhardened children, stored and read back: they are shown again, in ascending order of index and
    without repetitions, exactly when their runs fit.
   */
  lemma RequestedPathsAreShownAgainIff(name: string, ps: seq<uint32>)
    requires |name| <= 20 && forall i :: 0 <= i < |ps| ==> ps[i] < HARDENED
    ensures BuildMetadata(name, WalletPaths(ps)).Ok?
    ensures var m := BuildMetadata(name, WalletPaths(ps)).value;
      && (ParseMetadata(Serialized(m)) == Ok(m) <==> AllSmall(Runs(m.paths)))
      && (ParseMetadata(Serialized(m)).Ok? <==> AllSmall(Runs(m.paths)))
      && StrictlyAscending(m.paths) && forall w :: w in View(m).wallets <==> w in WalletPaths(ps)
  {
    WalletRoundTripIff(ps);
    InsertAllOrdered([], ps);
    var m := BuildMetadata(name, WalletPaths(ps)).value;
    StoredIsReadBackIff(m);
    forall w ensures w in View(m).wallets <==> w in WalletPaths(ps) {
      SameWallets(m.paths, ps, w);
      SameWallets(ps, m.paths, w);
    }
  }

  /** m/44'/60'/0'/0/16777216 is accepted and stored, and can never be read again. */
  lemma LargeIndexIsUnreadable(name: string)
    requires |name| <= 20
    ensures BuildMetadata(name, WalletPaths([0x100_0000])).Ok?
    ensures var m := BuildMetadata(name, WalletPaths([0x100_0000])).value;
      ParsePaths(WalletPaths([0x100_0000])) == Ok([0x100_0000]) && m.paths == [0x100_0000] &&
      ParseMetadata(Serialized(m)) == Err(InvalidLength)
  {
    WalletRoundTripIff([0x100_0000]);
    var m := BuildMetadata(name, WalletPaths([0x100_0000])).value;
    assert InsertAll([], [0x100_0000]) == [0x100_0000];
    assert Runs(m.paths) == [Run(0x100_0000, 0)];
    StoredIsReadBackIff(m);
    assert !Small(Runs(m.paths)[0]);
  }

  lemma SameWallets(ps: seq<uint32>, qs: seq<uint32>, w: string)
    requires forall p :: p in ps ==> p in qs
    ensures w in WalletPaths(ps) ==> w in WalletPaths(qs)
  {
    if w in WalletPaths(ps) {
      var i :| 0 <= i < |ps| && WalletPaths(ps)[i] == w;
      assert ps[i] in ps;
      var j :| 0 <= j < |qs| && qs[j] == ps[i];
      assert WalletPaths(qs)[j] == w;
    }
  }

  /** ToMetadata: one buffer whose last cell is overwritten for each path. */
  method ToMetadata(m: CardMetadata) returns (r: Metadata)
    ensures r == View(m)
  {
    var wallets: seq<string> := [];
    var tmp: seq<uint32> := [0x8000_002c, 0x8000_003c, 0x8000_0000, 0, 0];
    for i := 0 to |m.paths|
      invariant |tmp| == 5 && tmp[..4] == [0x8000_002c, 0x8000_003c, 0x8000_0000, 0]
      invariant wallets == WalletPaths(m.paths[..i])
    {
      tmp := tmp[4 := m.paths[i]];
      assert tmp == [0x8000_002c, 0x8000_003c, 0x8000_0000, 0, m.paths[i]];
      wallets := wallets + [Encode(tmp)];
      assert WalletPaths(m.paths[..i + 1]) == WalletPaths(m.paths[..i]) + [WalletPath(m.paths[i])];
    }
    assert m.paths[..|m.paths|] == m.paths;
    r := Metadata(Hex.Text(m.name), wallets);
  }
}
