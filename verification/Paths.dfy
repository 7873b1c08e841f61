/**
  Derivation-path text: the printer and the decoder of keycard-go's derivationpath package, and the two
  users of them in this repository, `ToMetadata` (internal/utils.go) and `parsePaths`
  (internal/keycard_context_v2.go).  Path text follows section "Extended keys" of BIP-32.
 */
module Paths {
  import opened Wrappers

  const HARDENED := 0x8000_0000
  const WALLET_ROOT := "m/44'/60'/0'/0"

  type uint32 = x: nat | x < 0x1_0000_0000

  datatype PathError =
    | ExpectedNumber
    | ExpectedSeparator
    | IndexTooLarge
    | NotUnderWalletRoot

  // ---------------------------------------------------------------------------------------------
  // Decimal numbers
  // ---------------------------------------------------------------------------------------------

  predicate IsDigit(c: char) {
    '0' <= c <= '9'
  }

  predicate AllDigits(s: string) {
    forall i :: 0 <= i < |s| ==> IsDigit(s[i])
  }

  /** fmt.Sprintf("%d") of a non-negative number. */
  function Decimal(n: nat): (s: string)
    ensures s != "" && AllDigits(s)
  {
    if n < 10 then [('0' as int + n) as char]
    else Decimal(n / 10) + [('0' as int + n % 10) as char]
  }

  /** The number a digit string denotes; strconv.ParseUint before its range check. */
  function Number(s: string): nat
    requires AllDigits(s)
  {
    if s == "" then 0 else 10 * Number(s[..|s| - 1]) + (s[|s| - 1] as int - '0' as int)
  }

  lemma {:induction false} NumberDecimal(n: nat)
    ensures Number(Decimal(n)) == n
  {
    if n < 10 {
    } else {
      NumberDecimal(n / 10);
      assert Decimal(n)[..|Decimal(n)| - 1] == Decimal(n / 10);
    }
  }

  // ---------------------------------------------------------------------------------------------
  // Printing
  // ---------------------------------------------------------------------------------------------

  function Segment(i: uint32): string {
    if i >= HARDENED then Decimal(i - HARDENED) + "'" else Decimal(i)
  }

  function Segments(raw: seq<uint32>): string {
    if raw == [] then "" else "/" + Segment(raw[0]) + Segments(raw[1..])
  }

  /** derivationpath.Encode: "m", then one segment per index, joined by "/". */
  function Encode(raw: seq<uint32>): string {
    "m" + Segments(raw)
  }

  // ---------------------------------------------------------------------------------------------
  // Decoding: the decoder's parse functions, each reading the rest of the text
  // ---------------------------------------------------------------------------------------------

  type Components = Result<seq<uint32>, PathError>

  /** Where a path begins: at the master key, at the card's current key, or at the parent of that. */
  datatype Start = Master | Parent | Current

  datatype Derivation = Derivation(start: Start, components: seq<uint32>)

  function From(start: Start, components: Components): Result<Derivation, PathError> {
    match components
    case Ok(path) => Ok(Derivation(start, path))
    case Err(e) => Err(e)
  }

  function Decode(text: string): Result<Derivation, PathError> {
    if text == "" then Ok(Derivation(Current, []))
    else if text[0] == 'm' then From(Master, ParseSeparator(text[1..], "", false, []))
    else if text[0] == '.' then
      if |text| == 1 then Ok(Derivation(Current, []))
      else if text[1] == '.' then From(Parent, ParseSeparator(text[2..], "", false, []))
      else From(Current, ParseSeparator(text[1..], "", false, []))
    else From(Current, ParseSegment(text, "", []))
  }

  /** After "m", ".", ".." or a hardened mark.  At the end of the text a pending token is dropped. */
  function ParseSeparator(rest: string, token: string, hardened: bool, path: seq<uint32>): Components
    requires AllDigits(token)
    decreases |rest|
  {
    if rest == "" then Ok(path)
    else if rest[0] == '/' then
      match SaveSegment(token, hardened, path)
      case Ok(longer) => ParseSegment(rest[1..], "", longer)
      case Err(e) => Err(e)
    else Err(ExpectedSeparator)
  }

  function ParseSegment(rest: string, token: string, path: seq<uint32>): Components
    requires AllDigits(token)
    decreases |rest|
  {
    if rest == "" then
      if token == "" then Err(ExpectedNumber) else SaveSegment(token, false, path)
    else if token != "" && rest[0] == '/' then
      match SaveSegment(token, false, path)
      case Ok(longer) => ParseSegment(rest[1..], "", longer)
      case Err(e) => Err(e)
    else if token != "" && rest[0] == '\'' then ParseSeparator(rest[1..], token, true, path)
    else if !IsDigit(rest[0]) then Err(ExpectedNumber)
    else ParseSegment(rest[1..], token + [rest[0]], path)
  }

  /** ParseUint's 32-bit range error and the decoder's own bound both reject indexes of 2^31 and more. */
  function SaveSegment(token: string, hardened: bool, path: seq<uint32>): Components
    requires AllDigits(token)
  {
    if token == "" then Ok(path)
    else if Number(token) >= HARDENED then Err(IndexTooLarge)
    else Ok(path + [if hardened then Number(token) + HARDENED else Number(token)])
  }

  // ---------------------------------------------------------------------------------------------
  // Round trip
  // ---------------------------------------------------------------------------------------------

  lemma {:induction false} ReadDigits(digits: string, rest: string, token: string, path: seq<uint32>)
    requires AllDigits(digits) && AllDigits(token)
    ensures ParseSegment(digits + rest, token, path) == ParseSegment(rest, token + digits, path)
    decreases |digits|
  {
    if digits == "" {
      assert digits + rest == rest && token + digits == token;
    } else {
      assert (digits + rest)[0] == digits[0];
      assert (digits + rest)[1..] == digits[1..] + rest;
      ReadDigits(digits[1..], rest, token + [digits[0]], path);
      assert token + [digits[0]] + digits[1..] == token + digits;
    }
  }

  /** What the decoder makes of printed indexes: everything but a hardened index in last position. */
  function Readable(raw: seq<uint32>): seq<uint32> {
    if raw != [] && raw[|raw| - 1] >= HARDENED then raw[..|raw| - 1] else raw
  }

  /** One printed index below 2^31, at the end of the text or before a separator. */
  lemma ReadPlain(n: uint32, rest: string, path: seq<uint32>)
    requires n < HARDENED
    requires rest != "" ==> rest[0] == '/'
    ensures ParseSegment(Decimal(n) + rest, "", path) ==
      if rest == "" then Ok(path + [n]) else ParseSegment(rest[1..], "", path + [n])
  {
    NumberDecimal(n);
    ReadDigits(Decimal(n), rest, "", path);
    assert "" + Decimal(n) == Decimal(n);
  }

  /** One printed hardened index: saved before a separator, dropped at the end of the text. */
  lemma ReadHardened(n: uint32, rest: string, path: seq<uint32>)
    requires n < HARDENED
    requires rest != "" ==> rest[0] == '/'
    ensures ParseSegment(Decimal(n) + "'" + rest, "", path) ==
      if rest == "" then Ok(path) else ParseSegment(rest[1..], "", path + [n + HARDENED])
  {
    NumberDecimal(n);
    assert Decimal(n) + "'" + rest == Decimal(n) + ("'" + rest);
    ReadDigits(Decimal(n), "'" + rest, "", path);
    assert "" + Decimal(n) == Decimal(n);
    assert ("'" + rest)[1..] == rest;
  }

  /** The decoder's state after the first of several printed indexes. */
  lemma ReadFirst(i: uint32, rest: string, path: seq<uint32>)
    requires rest != "" && rest[0] == '/'
    ensures ParseSegment(Segment(i) + rest, "", path) == ParseSegment(rest[1..], "", path + [i])
  {
    if i >= HARDENED {
      ReadHardened(i - HARDENED, rest, path);
    } else {
      ReadPlain(i, rest, path);
    }
  }

  lemma ReadLast(i: uint32, path: seq<uint32>)
    ensures ParseSegment(Segment(i), "", path) == Ok(if i >= HARDENED then path else path + [i])
  {
    assert Segment(i) + "" == Segment(i);
    if i >= HARDENED {
      ReadHardened(i - HARDENED, "", path);
    } else {
      ReadPlain(i, "", path);
    }
  }

  lemma {:induction false} ReadSegments(i: uint32, more: seq<uint32>, path: seq<uint32>)
    ensures ParseSegment(Segment(i) + Segments(more), "", path) == Ok(path + Readable([i] + more))
    decreases |more|
  {
    hide ParseSegment, Segment;
    if more == [] {
      assert Segment(i) + Segments(more) == Segment(i);
      ReadLast(i, path);
      assert [i] + more == [i] && [i][..0] == [] && path + [] == path;
    } else {
      var first, others := more[0], more[1..];
      var tail := Segment(first) + Segments(others);
      assert Segments(more) == "/" + tail;
      ReadFirst(i, "/" + tail, path);
      assert ("/" + tail)[1..] == tail;
      ReadSegments(first, others, path + [i]);
      assert [first] + others == more;
      ReadableCons(i, more);
      assert path + [i] + Readable(more) == path + ([i] + Readable(more));
    }
  }

  lemma ReadableCons(i: uint32, more: seq<uint32>)
    requires more != []
    ensures Readable([i] + more) == [i] + Readable(more)
  {
  }

  /** The decoder applied to printed text, for every list of 32-bit indexes. */
  lemma DecodeEncode(raw: seq<uint32>)
    ensures Decode(Encode(raw)) == Ok(Derivation(Master, Readable(raw)))
  {
    hide ParseSegment, Segment;
    assert Encode(raw)[1..] == Segments(raw);
    if raw != [] {
      var rest := Segment(raw[0]) + Segments(raw[1..]);
      assert Segments(raw) == "/" + rest && Segments(raw)[1..] == rest;
      assert ParseSeparator(Segments(raw), "", false, []) == ParseSegment(rest, "", []);
      ReadSegments(raw[0], raw[1..], []);
      assert [raw[0]] + raw[1..] == raw;
      assert [] + Readable(raw) == Readable(raw);
    }
  }

  /** Printing and decoding is the identity exactly when the list does not end in a hardened index. */
  lemma RoundTripIff(raw: seq<uint32>)
    ensures Decode(Encode(raw)) == Ok(Derivation(Master, raw)) <==> (raw == [] || raw[|raw| - 1] < HARDENED)
  {
    DecodeEncode(raw);
    if raw != [] && raw[|raw| - 1] >= HARDENED {
      assert |Readable(raw)| != |raw|;
    }
  }

  /** A hardened mark at the end of any accepted path costs the path its last component. */
  lemma {:induction false} MarkDropsLast(rest: string, token: string, hardened: bool, path: seq<uint32>)
    requires AllDigits(token)
    requires if rest == "" then token != "" else IsDigit(rest[|rest| - 1])
    ensures var p := ParseSegment(rest, token, path);
      p.Ok? ==> p.value != [] && ParseSegment(rest + "'", token, path) == Ok(p.value[..|p.value| - 1])
    ensures var p := ParseSeparator(rest, token, hardened, path);
      rest != "" && p.Ok? ==>
        p.value != [] && ParseSeparator(rest + "'", token, hardened, path) == Ok(p.value[..|p.value| - 1])
    decreases |rest|
  {
    if rest == "" {
      assert rest + "'" == "'";
    } else {
      var next := rest[1..];
      assert (rest + "'")[0] == rest[0] && (rest + "'")[1..] == next + "'";
      if next != "" {
        if token != "" {
          MarkDropsLast(next, token, true, path);
        }
        if SaveSegment(token, hardened, path).Ok? {
          MarkDropsLast(next, "", false, SaveSegment(token, hardened, path).value);
        }
        if SaveSegment(token, false, path).Ok? {
          MarkDropsLast(next, "", false, SaveSegment(token, false, path).value);
        }
      }
      if IsDigit(rest[0]) {
        MarkDropsLast(next, token + [rest[0]], false, path);
      }
    }
  }

  lemma TrailingMarkIsDropped(text: string)
    requires text != "" && IsDigit(text[|text| - 1]) && Decode(text).Ok?
    ensures var d := Decode(text).value;
      d.components != [] &&
      Decode(text + "'") == Ok(d.(components := d.components[..|d.components| - 1]))
  {
    var marked := text + "'";
    assert marked[0] == text[0];
    if text[0] == 'm' {
      assert marked[1..] == text[1..] + "'";
      MarkDropsLast(text[1..], "", false, []);
    } else if text[0] == '.' {
      if text[1] == '.' {
        assert marked[2..] == text[2..] + "'";
        MarkDropsLast(text[2..], "", false, []);
      } else {
        assert marked[1..] == text[1..] + "'";
        MarkDropsLast(text[1..], "", false, []);
      }
    } else {
      MarkDropsLast(text, "", false, []);
    }
  }

  // ---------------------------------------------------------------------------------------------
  // Wallet paths
  // ---------------------------------------------------------------------------------------------

  /** The path `ToMetadata` prints for a child index. */
  function WalletPath(p: uint32): string {
    Encode([0x8000_002c, 0x8000_003c, 0x8000_0000, 0, p])
  }

  function Child(p: uint32): Derivation {
    Derivation(Master, [0x8000_002c, 0x8000_003c, 0x8000_0000, 0, p])
  }

  function WalletPaths(ps: seq<uint32>): (paths: seq<string>) {
    seq(|ps|, i requires 0 <= i < |ps| => WalletPath(ps[i]))
  }

  predicate HasPrefix(s: string, prefix: string) {
    |prefix| <= |s| && s[..|prefix|] == prefix
  }

  lemma SegmentsCons(i: uint32, more: seq<uint32>)
    ensures Segments([i] + more) == "/" + Segment(i) + Segments(more)
  {
  }

  lemma WalletPathText(p: uint32)
    ensures WalletPath(p) == WALLET_ROOT + "/" + Segment(p)
    ensures HasPrefix(WalletPath(p), WALLET_ROOT)
  {
    var r4: seq<uint32> := [p];
    var r3: seq<uint32> := [0] + r4;
    var r2: seq<uint32> := [0x8000_0000] + r3;
    var r1: seq<uint32> := [0x8000_003c] + r2;
    SegmentsCons(p, []);
    SegmentsCons(0, r4);
    SegmentsCons(0x8000_0000, r3);
    SegmentsCons(0x8000_003c, r2);
    SegmentsCons(0x8000_002c, r1);
    assert r4 == [p] + [];
    assert [0x8000_002c] + r1 == [0x8000_002c, 0x8000_003c, 0x8000_0000, 0, p];
    RootSegments();
    var s := "/" + Segment(p);
    assert Segments(r4) == s;
    assert Segments([0x8000_002c] + r1) == "/44'" + ("/60'" + ("/0'" + ("/0" + s)));
    RootText(s);
    assert WalletPath(p)[..|WALLET_ROOT|] == WALLET_ROOT;
  }

  lemma RootText(s: string)
    ensures "m" + ("/44'" + ("/60'" + ("/0'" + ("/0" + s)))) == WALLET_ROOT + s
  {
  }

  lemma RootSegments()
    ensures "/" + Segment(0x8000_002c) == "/44'"
    ensures "/" + Segment(0x8000_003c) == "/60'"
    ensures "/" + Segment(0x8000_0000) == "/0'"
    ensures "/" + Segment(0) == "/0"
  {
    assert Decimal(4) == "4" && Decimal(44) == "44";
    assert Decimal(6) == "6" && Decimal(60) == "60";
  }

  /** The index `parsePaths` keeps of one path: its last component. */
  function ParsePath(path: string): Result<uint32, PathError> {
    if !HasPrefix(path, WALLET_ROOT) then Err(NotUnderWalletRoot)
    else
      match Decode(path)
      case Err(e) => Err(e)
      case Ok(d) => RootComponents(path); Ok(d.components[|d.components| - 1])
  }

  function ParsePaths(paths: seq<string>): Result<seq<uint32>, PathError> {
    if paths == [] then Ok([])
    else
      match ParsePath(paths[0])
      case Err(e) => Err(e)
      case Ok(p) =>
        match ParsePaths(paths[1..])
        case Err(e) => Err(e)
        case Ok(ps) => Ok([p] + ps)
  }

  /** Parsing one path after the other gives what parsing the list gives. */
  lemma {:induction false} ParsedOneByOne(paths: seq<string>, ps: seq<uint32>)
    requires |paths| == |ps| && forall i :: 0 <= i < |paths| ==> ParsePath(paths[i]) == Ok(ps[i])
    ensures ParsePaths(paths) == Ok(ps)
  {
    if paths == [] {
    } else {
      ParsedOneByOne(paths[1..], ps[1..]);
      assert [ps[0]] + ps[1..] == ps;
    }
  }

  lemma {:induction false} DecodedGrows(rest: string, token: string, hardened: bool, path: seq<uint32>)
    requires AllDigits(token)
    ensures var r := ParseSeparator(rest, token, hardened, path); r.Ok? ==> |path| <= |r.value|
    ensures var r := ParseSegment(rest, token, path); r.Ok? ==> |path| <= |r.value|
    decreases |rest|
  {
    if rest == "" {
    } else {
      DecodedGrows(rest[1..], "", false, path);
      DecodedGrows(rest[1..], token, true, path);
      if IsDigit(rest[0]) { DecodedGrows(rest[1..], token + [rest[0]], false, path); }
      if SaveSegment(token, hardened, path).Ok? {
        DecodedGrows(rest[1..], "", false, SaveSegment(token, hardened, path).value);
      }
      if SaveSegment(token, false, path).Ok? {
        DecodedGrows(rest[1..], "", false, SaveSegment(token, false, path).value);
      }
    }
  }

  /** Under the wallet root a decoded path has a last component, so taking it never goes out of range. */
  lemma RootComponents(path: string)
    requires HasPrefix(path, WALLET_ROOT)
    ensures Decode(path).Ok? ==> |Decode(path).value.components| > 0
  {
    var tail := path[5..];
    assert path[..14] == WALLET_ROOT;
    assert path[1..] == "/" + ("44" + ("'" + tail));
    ReadDigits("44", "'" + tail, "", []);
    assert "" + "44" == "44";
    assert Decode(path) == From(Master, ParseSegment("44" + ("'" + tail), "", [])) by {
      assert path[1..][1..] == "44" + ("'" + tail);
    }
    assert ("'" + tail)[1..] == tail;
    assert Decode(path) == From(Master, ParseSeparator(tail, "44", true, []));
    assert tail[0] == '/';
    if Decode(path).Ok? {
      DecodedGrows(tail[1..], "", false, SaveSegment("44", true, []).value);
    }
  }

  /** What survives printing and parsing one child index: a hardened one is read back as 0. */
  lemma ParseWalletPath(p: uint32)
    ensures ParsePath(WalletPath(p)) == Ok(if p < HARDENED then p else 0)
  {
    WalletPathText(p);
    DecodeEncode([0x8000_002c, 0x8000_003c, 0x8000_0000, 0, p]);
  }

  lemma {:induction false} ParseWalletPaths(ps: seq<uint32>)
    ensures ParsePaths(WalletPaths(ps)).Ok?
    ensures var qs := ParsePaths(WalletPaths(ps)).value;
      |qs| == |ps| && forall i :: 0 <= i < |ps| ==> qs[i] == if ps[i] < HARDENED then ps[i] else 0
  {
    if ps == [] {
    } else {
      ParseWalletPath(ps[0]);
      assert WalletPaths(ps)[1..] == WalletPaths(ps[1..]);
      ParseWalletPaths(ps[1..]);
    }
  }

  /** The wallet-path round trip recovers the list exactly when none of its indexes is hardened. */
  lemma WalletRoundTripIff(ps: seq<uint32>)
    ensures ParsePaths(WalletPaths(ps)) == Ok(ps) <==> forall i :: 0 <= i < |ps| ==> ps[i] < HARDENED
  {
    ParseWalletPaths(ps);
    var qs := ParsePaths(WalletPaths(ps)).value;
    if forall i :: 0 <= i < |ps| ==> ps[i] < HARDENED {
      assert qs == ps;
    }
  }

  /** A hardened child index that does not survive: m/44'/60'/0'/0/5' is read back as index 0. */
  lemma HardenedIndexIsLost()
    ensures ParsePaths(WalletPaths([0x8000_0005])) == Ok([0])
  {
    ParseWalletPaths([0x8000_0005]);
    assert ParsePaths(WalletPaths([0x8000_0005])).value == [0];
  }

  /** parsePaths: stops at the first path it cannot accept. */
  method ParseAllPaths(paths: seq<string>) returns (r: Result<seq<uint32>, PathError>)
    ensures r == ParsePaths(paths)
  {
    var parsed: seq<uint32> := [];
    for i := 0 to |paths|
      invariant |parsed| == i && forall j :: 0 <= j < i ==> ParsePath(paths[j]) == Ok(parsed[j])
    {
      var path := paths[i];
      if !HasPrefix(path, WALLET_ROOT) {
        StopsAt(paths, i);
        return Err(NotUnderWalletRoot);
      }
      match Decode(path) {
        case Err(e) =>
          StopsAt(paths, i);
          return Err(e);
        case Ok(d) =>
          RootComponents(path);
          parsed := parsed + [d.components[|d.components| - 1]];
      }
    }
    ParsedOneByOne(paths, parsed);
    return Ok(parsed);
  }

  lemma {:induction false} StopsAt(paths: seq<string>, i: nat)
    requires i < |paths| && ParsePath(paths[i]).Err?
    requires forall j :: 0 <= j < i ==> ParsePath(paths[j]).Ok?
    ensures ParsePaths(paths) == Err(ParsePath(paths[i]).error)
  {
    if i == 0 {
    } else {
      StopsAt(paths[1..], i - 1);
    }
  }
}
