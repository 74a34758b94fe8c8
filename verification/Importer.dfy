// Parsing of the address file: validation, normalisation and stable removal of duplicates.
module Importer {
  import opened Domain
  import opened Tables
  import opened ProtocolInvariant
  import ImportLaws

  // One record as the CSV reader delivers it: its fields, or a lexical error.
  datatype Item = Fields(fields: seq<string>) | Unreadable

  datatype Reason = ReaderFailed | FieldCount | EmptyOrSpaced | InvalidAddress(kind: AddressType) | UnsupportedType

  datatype Line = Good(row: Row) | Bad(reason: Reason)

  datatype Outcome = Parsed(rows: seq<Row>) | NoHeader | BadHeader | BadLine(line: nat, reason: Reason)

  // Text.

  predicate IsSpace(c: char) {
    || '\t' <= c <= '\r' || c == ' ' || c == '\U{85}' || c == '\U{A0}' || c == '\U{1680}'
    || '\U{2000}' <= c <= '\U{200A}' || c == '\U{2028}' || c == '\U{2029}' || c == '\U{202F}'
    || c == '\U{205F}' || c == '\U{3000}'
  }

  function TrimLeft(s: string): string {
    if s != "" && IsSpace(s[0]) then TrimLeft(s[1..]) else s
  }

  function TrimRight(s: string): string {
    if s != "" && IsSpace(s[|s| - 1]) then TrimRight(s[..|s| - 1]) else s
  }

  function TrimSpace(s: string): string { TrimRight(TrimLeft(s)) }

  function LowerChar(c: char): char {
    if 'A' <= c <= 'Z' then (c as int + 32) as char else c
  }

  // No other letter has a lower case among the letters of an address type or of the prefix bc1.
  function ToLower(s: string): string { seq(|s|, i requires 0 <= i < |s| => LowerChar(s[i])) }

  function ByteLength(s: string): nat {
    if s == "" then 0 else
      ByteLength(s[1..])
      + if s[0] < '\U{80}' then 1 else if s[0] < '\U{800}' then 2 else if s[0] < '\U{10000}' then 3 else 4
  }

  // Addresses.

  predicate IsHex(c: char) { '0' <= c <= '9' || 'a' <= c <= 'f' || 'A' <= c <= 'F' }

  predicate IsBase58(c: char) {
    ('1' <= c <= '9' || 'A' <= c <= 'Z' || 'a' <= c <= 'z') && c != 'I' && c != 'O' && c != 'l'
  }

  predicate MatchesEvm(s: string) {
    |s| == 42 && s[..2] == "0x" && forall i :: 2 <= i < |s| ==> IsHex(s[i])
  }

  predicate MatchesBase58(s: string) { s != "" && forall i :: 0 <= i < |s| ==> IsBase58(s[i]) }

  predicate HasSpace(s: string) { exists c :: c in s && c in "\r\n\t " }

  function KindOf(name: string): Option<AddressType> {
    if name == "evm" then Some(EVM) else if name == "btc" then Some(BTC)
    else if name == "sol" then Some(SOL) else if name == "trx" then Some(TRX) else None
  }

  function KindName(kind: AddressType): string {
    match kind case EVM => "evm" case BTC => "btc" case SOL => "sol" case TRX => "trx"
  }

  predicate IsValid(kind: AddressType, address: string) {
    match kind
    case EVM => MatchesEvm(address)
    case BTC => 14 <= ByteLength(address) <= 90 && ("1" <= address || "3" <= address || "bc1" <= ToLower(address))
    case SOL => 32 <= ByteLength(address) <= 44 && MatchesBase58(address)
    case TRX => ByteLength(address) == 34 && "T" <= address && MatchesBase58(address)
  }

  datatype Normalized = Normal(text: string) | Invalid(reason: Reason)

  function NormalizeAndValidate(name: string, address: string): Normalized {
    if address == "" || HasSpace(address) then Invalid(EmptyOrSpaced)
    else
      var kind := KindOf(name);
      if kind.None? then Invalid(UnsupportedType)
      else if !IsValid(kind.value, address) then Invalid(InvalidAddress(kind.value))
      else Normal(if kind.value.EVM? then ToLower(address) else address)
  }

  // A normalised address is valid and normalises to itself, so identities do not depend on how often this is done.
  lemma {:induction false} NormalizingIsIdempotent(name: string, address: string)
    requires NormalizeAndValidate(name, address).Normal?
    ensures NormalizeAndValidate(name, NormalizeAndValidate(name, address).text) == NormalizeAndValidate(name, address)
  {
    if name == "evm" {
      var lower := ToLower(address);
      assert address[..2] == "0x" && lower[0] == LowerChar(address[0]) && lower[1] == LowerChar(address[1]);
      assert lower[..2] == "0x";
      assert forall c :: c in lower ==> c == '0' || c == 'x' || IsHex(c);
      assert ToLower(lower) == lower;
    }
  }

  // Lines.

  function ParseLine(item: Item): Line {
    if item.Unreadable? then Bad(ReaderFailed)
    else if |item.fields| < 2 || |item.fields| > 3 then Bad(FieldCount)
    else
      var name := ToLower(TrimSpace(item.fields[0]));
      var address := TrimSpace(item.fields[1]);
      var tag := if |item.fields| == 3 then TrimSpace(item.fields[2]) else "";
      match NormalizeAndValidate(name, address)
      case Invalid(reason) => Bad(reason)
      case Normal(text) => Good(Row(KindOf(name).value, address, text, tag))
  }

  // What the fields of a line mean.

  predicate IsBlank(s: string) { forall i :: 0 <= i < |s| ==> IsSpace(s[i]) }

  lemma {:induction false} LeftIsTrimmed(s: string) returns (left: string)
    ensures IsBlank(left) && s == left + TrimLeft(s)
    ensures TrimLeft(s) != "" ==> !IsSpace(TrimLeft(s)[0])
  {
    if s != "" && IsSpace(s[0]) {
      left := LeftIsTrimmed(s[1..]);
      left := [s[0]] + left;
    } else {
      left := "";
    }
  }

  lemma {:induction false} RightIsTrimmed(s: string) returns (right: string)
    ensures IsBlank(right) && s == TrimRight(s) + right
    ensures TrimRight(s) != "" ==> !IsSpace(TrimRight(s)[|TrimRight(s)| - 1])
  {
    if s != "" && IsSpace(s[|s| - 1]) {
      right := RightIsTrimmed(s[..|s| - 1]);
      right := right + [s[|s| - 1]];
    } else {
      right := "";
    }
  }

  // Trimming takes the space off both ends and nothing else.
  lemma {:induction false} TrimTakesSpaceOnly(s: string) returns (left: string, right: string)
    ensures IsBlank(left) && IsBlank(right) && s == left + TrimSpace(s) + right
    ensures var t := TrimSpace(s); t != "" ==> !IsSpace(t[0]) && !IsSpace(t[|t| - 1])
  {
    left := LeftIsTrimmed(s);
    right := RightIsTrimmed(TrimLeft(s));
    var t := TrimSpace(s);
    assert TrimLeft(s) == t + right;
    if t != "" { assert TrimLeft(s)[0] == t[0]; }
  }

  // The same letters but for their case.
  predicate SameLetter(c: char, d: char) {
    || c == d
    || ('A' <= c <= 'Z' && d as int == c as int + 32)
    || ('A' <= d <= 'Z' && c as int == d as int + 32)
  }

  predicate SameSpelling(a: string, b: string) {
    |a| == |b| && forall i :: 0 <= i < |a| ==> SameLetter(a[i], b[i])
  }

  lemma {:induction false} LoweringIsSpelling(a: string, b: string)
    ensures ToLower(a) == ToLower(b) <==> SameSpelling(a, b)
    ensures SameSpelling(a, ToLower(a))
  {
    if ToLower(a) == ToLower(b) {
      assert |a| == |ToLower(a)| == |b|;
      forall i | 0 <= i < |a| ensures SameLetter(a[i], b[i]) {
        assert ToLower(a)[i] == LowerChar(a[i]) && ToLower(b)[i] == LowerChar(b[i]);
      }
    }
  }

  // A row takes its text and its tag from the trimmed fields of its line, its type from the first field in any case,
  // and the identity text is the trimmed address, in lower case for an evm address only.
  lemma {:induction false} RowIsOfFields(item: Item)
    requires ParseLine(item).Good?
    ensures item.Fields? && 2 <= |item.fields| <= 3
    ensures var row := ParseLine(item).row;
            && row.text == TrimSpace(item.fields[1])
            && row.tag == (if |item.fields| == 3 then TrimSpace(item.fields[2]) else "")
            && SameSpelling(TrimSpace(item.fields[0]), KindName(row.kind))
            && (!row.kind.EVM? ==> row.normalized == row.text)
            && (row.kind.EVM? ==>
                  SameSpelling(row.normalized, row.text)
                  && forall i :: 0 <= i < |row.normalized| ==> !('A' <= row.normalized[i] <= 'Z'))
  {
    var name, address := TrimSpace(item.fields[0]), TrimSpace(item.fields[1]);
    LoweringIsSpelling(name, name);
    LoweringIsSpelling(address, address);
    assert ToLower(name) == KindName(ParseLine(item).row.kind);
  }

  // A line of two or three fields with a known type and a valid address is good.
  lemma {:induction false} ValidLineIsGood(item: Item, kind: AddressType)
    requires item.Fields? && 2 <= |item.fields| <= 3 && SameSpelling(TrimSpace(item.fields[0]), KindName(kind))
    requires IsValid(kind, TrimSpace(item.fields[1])) && !HasSpace(TrimSpace(item.fields[1]))
    ensures ParseLine(item).Good? && ParseLine(item).row.kind == kind
  {
    LoweringIsSpelling(TrimSpace(item.fields[0]), KindName(kind));
    assert ToLower(KindName(kind)) == KindName(kind);
  }

  // Why a line is bad, in the order in which it is examined.
  lemma {:induction false} BadLineIff(item: Item)
    ensures ParseLine(item) == Bad(ReaderFailed) <==> item.Unreadable?
    ensures ParseLine(item) == Bad(FieldCount) <==> item.Fields? && (|item.fields| < 2 || |item.fields| > 3)
    ensures ParseLine(item) == Bad(EmptyOrSpaced) <==> (
              && item.Fields? && 2 <= |item.fields| <= 3
              && (TrimSpace(item.fields[1]) == "" || HasSpace(TrimSpace(item.fields[1]))))
    ensures ParseLine(item) == Bad(UnsupportedType) ==>
              forall kind :: !SameSpelling(TrimSpace(item.fields[0]), KindName(kind))
    ensures forall kind :: ParseLine(item) == Bad(InvalidAddress(kind)) ==>
              SameSpelling(TrimSpace(item.fields[0]), KindName(kind)) && !IsValid(kind, TrimSpace(item.fields[1]))
  {
    if item.Fields? && 2 <= |item.fields| <= 3 {
      var name := TrimSpace(item.fields[0]);
      forall kind ensures SameSpelling(name, KindName(kind)) <==> KindOf(ToLower(name)) == Some(kind) {
        LoweringIsSpelling(name, KindName(kind));
        assert ToLower(KindName(kind)) == KindName(kind);
      }
    }
  }

  // Two good lines name the same address exactly if they are of one type and their trimmed addresses agree, for evm
  // up to the case of letters.
  lemma {:induction false} LinesAgreeIff(a: Item, b: Item)
    requires ParseLine(a).Good? && ParseLine(b).Good?
    ensures var x, y := ParseLine(a).row, ParseLine(b).row;
            x.Key() == y.Key() <==> (
              && x.kind == y.kind
              && if x.kind.EVM? then SameSpelling(TrimSpace(a.fields[1]), TrimSpace(b.fields[1]))
                 else TrimSpace(a.fields[1]) == TrimSpace(b.fields[1]))
  {
    LoweringIsSpelling(TrimSpace(a.fields[1]), TrimSpace(b.fields[1]));
  }

  predicate HeaderOk(header: seq<string>) {
    && 2 <= |header| <= 3 && TrimSpace(header[0]) == "address_type" && TrimSpace(header[1]) == "address"
    && (|header| == 3 ==> TrimSpace(header[2]) == "label")
  }

  // The text under which a row is remembered.
  function SeenKey(row: Row): string { KindName(row.kind) + "\0" + row.normalized }

  // It stands for the identity the table is unique in.
  lemma {:induction false} SeenKeyIsIdentity(a: Row, b: Row)
    ensures SeenKey(a) == SeenKey(b) <==> a.Key() == b.Key()
  {
    if SeenKey(a) == SeenKey(b) {
      assert SeenKey(a)[..3] == KindName(a.kind) && SeenKey(b)[..3] == KindName(b.kind);
      assert SeenKey(a)[4..] == a.normalized && SeenKey(b)[4..] == b.normalized;
      assert KindOf(KindName(a.kind)) == Some(a.kind) && KindOf(KindName(b.kind)) == Some(b.kind);
    }
  }

  // Stable removal of duplicates: at lists, in order, the places of the rows kept, which are exactly the first
  // occurrences of their identities.

  ghost predicate Ascends(at: seq<nat>) { forall i, j :: 0 <= i < j < |at| ==> at[i] < at[j] }

  ghost predicate IsFirst(all: seq<Row>, p: nat)
    requires p < |all|
  {
    forall q :: 0 <= q < p ==> all[q].Key() != all[p].Key()
  }

  ghost predicate KeepsFirsts(all: seq<Row>, kept: seq<Row>, at: seq<nat>) {
    && Ascends(at) && |kept| == |at|
    && (forall i :: 0 <= i < |at| ==> at[i] < |all| && kept[i] == all[at[i]])
    && (forall p :: 0 <= p < |all| ==> (p in at <==> IsFirst(all, p)))
  }

  // There is only one way to do it.
  lemma {:induction false} KeptRowsAreDetermined(all: seq<Row>, kept: seq<Row>, at: seq<nat>, kept': seq<Row>,
                                                 at': seq<nat>)
    requires KeepsFirsts(all, kept, at) && KeepsFirsts(all, kept', at')
    ensures kept == kept'
  {
    assert forall p :: p in at <==> p in at';
    AscendingListsAgree(at, at');
  }

  lemma {:induction false} AscendingListsAgree(a: seq<nat>, b: seq<nat>)
    requires Ascends(a) && Ascends(b) && forall p :: p in a <==> p in b
    ensures a == b
  {
    assert a != [] ==> a[0] in b;
    assert b != [] ==> b[0] in a;
    if a != [] {
      LastsAgree(a, b);
      var front, front' := a[..|a| - 1], b[..|b| - 1];
      forall p ensures p in front <==> p in front' {
        LastIsLeftOut(a, p);
        LastIsLeftOut(b, p);
      }
      AscendingListsAgree(front, front');
    }
  }

  lemma {:induction false} LastsAgree(a: seq<nat>, b: seq<nat>)
    requires Ascends(a) && Ascends(b) && (forall p :: p in a <==> p in b) && a != [] && b != []
    ensures a[|a| - 1] == b[|b| - 1]
  {
    assert a[|a| - 1] in b && b[|b| - 1] in a;
  }

  lemma {:induction false} LastIsLeftOut(a: seq<nat>, p: nat)
    requires Ascends(a) && a != []
    ensures p in a[..|a| - 1] <==> p in a && p != a[|a| - 1]
  {}

  ghost predicate Repeats(all: seq<Row>, row: Row) { exists q :: 0 <= q < |all| && all[q].Key() == row.Key() }

  // No identity is kept twice and none is lost.
  lemma {:induction false} KeptRowsCoverOnce(all: seq<Row>, kept: seq<Row>, at: seq<nat>)
    requires KeepsFirsts(all, kept, at)
    ensures forall i, j :: 0 <= i < j < |kept| ==> kept[i].Key() != kept[j].Key()
    ensures forall p :: 0 <= p < |all| ==> Repeats(kept, all[p])
  {
    forall i, j | 0 <= i < j < |kept| ensures kept[i].Key() != kept[j].Key() {
      assert at[j] in at;
      assert IsFirst(all, at[j]);
    }
    forall p | 0 <= p < |all| ensures Repeats(kept, all[p]) {
      var q := FirstOf(all, p);
      assert q in at;
      var i :| 0 <= i < |at| && at[i] == q;
      assert kept[i].Key() == all[p].Key();
    }
  }

  lemma {:induction false} FirstOf(all: seq<Row>, p: nat) returns (q: nat)
    requires p < |all|
    ensures q <= p && all[q].Key() == all[p].Key() && IsFirst(all, q)
  {
    if IsFirst(all, p) {
      q := p;
    } else {
      var earlier :| 0 <= earlier < p && all[earlier].Key() == all[p].Key();
      q := FirstOf(all, earlier);
    }
  }

  ghost predicate Remembers(seen: set<string>, all: seq<Row>) {
    forall key :: key in seen <==> exists i :: 0 <= i < |all| && SeenKey(all[i]) == key
  }

  lemma {:induction false} SeenMeansRepeated(all: seq<Row>, row: Row, seen: set<string>)
    requires Remembers(seen, all)
    ensures SeenKey(row) in seen <==> Repeats(all, row)
  {
    forall i | 0 <= i < |all| ensures SeenKey(all[i]) == SeenKey(row) <==> all[i].Key() == row.Key() {
      SeenKeyIsIdentity(all[i], row);
    }
  }

  lemma {:induction false} RemembersMore(seen: set<string>, all: seq<Row>, row: Row)
    requires Remembers(seen, all)
    ensures Remembers(seen + {SeenKey(row)}, all + [row])
    ensures SeenKey(row) in seen ==> Remembers(seen, all + [row])
  {
    var more := all + [row];
    assert more[|all|] == row && forall i :: 0 <= i < |all| ==> more[i] == all[i];
    forall key ensures key in seen + {SeenKey(row)} <==> exists i :: 0 <= i < |more| && SeenKey(more[i]) == key {
      if key in seen {
        var i :| 0 <= i < |all| && SeenKey(all[i]) == key;
        assert SeenKey(more[i]) == key;
      }
    }
    if SeenKey(row) in seen {
      assert seen + {SeenKey(row)} == seen;
    }
  }

  lemma {:induction false} FirstsOfPrefix(all: seq<Row>, row: Row)
    ensures forall p :: 0 <= p < |all| ==> (IsFirst(all + [row], p) <==> IsFirst(all, p))
    ensures IsFirst(all + [row], |all|) <==> !Repeats(all, row)
  {
    assert forall p :: 0 <= p < |all| ==> (all + [row])[p] == all[p];
  }

  lemma {:induction false} SkipKeepsFirsts(all: seq<Row>, kept: seq<Row>, at: seq<nat>, row: Row)
    requires KeepsFirsts(all, kept, at) && Repeats(all, row)
    ensures KeepsFirsts(all + [row], kept, at)
  {
    FirstsOfPrefix(all, row);
  }

  lemma {:induction false} AppendKeepsFirsts(all: seq<Row>, kept: seq<Row>, at: seq<nat>, row: Row)
    requires KeepsFirsts(all, kept, at) && !Repeats(all, row)
    ensures KeepsFirsts(all + [row], kept + [row], at + [|all|])
  {
    FirstsOfPrefix(all, row);
  }

  lemma {:induction false} ReadsMore(input: seq<Item>, all: seq<Row>, row: Row)
    requires Reads(input, all)
    requires |all| + 1 < |input| && ParseLine(input[|all| + 1]) == Good(row)
    ensures Reads(input, all + [row])
  {
    var more := all + [row];
    forall i | 1 <= i <= |more| ensures ParseLine(input[i]).Good? && ParseLine(input[i]).row == more[i - 1] {
      if i <= |all| {
        assert more[i - 1] == all[i - 1];
      }
    }
  }

  lemma {:induction false} StepIsRight(all: seq<Row>, kept: seq<Row>, at: seq<nat>, row: Row, seen: set<string>)
    requires Remembers(seen, all) && KeepsFirsts(all, kept, at)
    ensures SeenKey(row) in seen ==> KeepsFirsts(all + [row], kept, at) && Remembers(seen, all + [row])
    ensures SeenKey(row) !in seen ==> (
              && KeepsFirsts(all + [row], kept + [row], at + [|all|])
              && Remembers(seen + {SeenKey(row)}, all + [row]))
  {
    SeenMeansRepeated(all, row, seen);
    RemembersMore(seen, all, row);
    if SeenKey(row) in seen {
      SkipKeepsFirsts(all, kept, at, row);
    } else {
      AppendKeepsFirsts(all, kept, at, row);
    }
  }

  // The lines after the header, as far as they were read and were all good.
  ghost predicate Reads(input: seq<Item>, all: seq<Row>) {
    && |all| < |input| && (forall i :: 1 <= i <= |all| ==> ParseLine(input[i]).Good?)
    && (forall i :: 1 <= i <= |all| ==> ParseLine(input[i]).row == all[i - 1])
  }

  // The parser. On success the rows are the first occurrences among the parsed lines; the first bad line is
  // reported with its number, whatever follows it.
  method ParseCSV(input: seq<Item>) returns (outcome: Outcome, ghost all: seq<Row>, ghost at: seq<nat>)
    ensures outcome.NoHeader? <==> input == [] || input[0].Unreadable?
    ensures outcome.BadHeader? <==> input != [] && input[0].Fields? && !HeaderOk(input[0].fields)
    ensures outcome.BadLine? ==> (
              && Reads(input, all) && outcome.line == |all| + 2 && outcome.line <= |input|
              && ParseLine(input[outcome.line - 1]) == Bad(outcome.reason))
    ensures outcome.Parsed? ==> (
              && Reads(input, all) && |all| == |input| - 1 && KeepsFirsts(all, outcome.rows, at))
  {
    all, at := [], [];
    if input == [] || input[0].Unreadable? {
      return NoHeader, all, at;
    }
    if !HeaderOk(input[0].fields) {
      return BadHeader, all, at;
    }
    outcome, all, at := ParseRecords(input);
  }

  method ParseRecords(input: seq<Item>) returns (outcome: Outcome, ghost all: seq<Row>, ghost at: seq<nat>)
    requires input != []
    ensures outcome.Parsed? || outcome.BadLine?
    ensures Reads(input, all)
    ensures outcome.BadLine? ==> (
              && outcome.line == |all| + 2 && outcome.line <= |input|
              && ParseLine(input[outcome.line - 1]) == Bad(outcome.reason))
    ensures outcome.Parsed? ==> |all| == |input| - 1 && KeepsFirsts(all, outcome.rows, at)
  {
    all, at := [], [];
    var seen: set<string> := {};
    var rows: seq<Row> := [];
    var line := 1;
    while line < |input|
      invariant 1 <= line <= |input| && |all| == line - 1
      invariant Reads(input, all) && Remembers(seen, all) && KeepsFirsts(all, rows, at)
    {
      var item := input[line];
      line := line + 1;
      var parsed := ParseLine(item);
      if parsed.Bad? {
        outcome := BadLine(line, parsed.reason);
        return;
      }
      var row := parsed.row;
      ReadsMore(input, all, row);
      StepIsRight(all, rows, at, row, seen);
      ghost var before := all;
      all := all + [row];
      if SeenKey(row) in seen {
        continue;
      }
      seen := seen + {SeenKey(row)};
      rows, at := rows + [row], at + [|before|];
    }
    outcome := Parsed(rows);
  }

  // An evm address spelled again in another case is dropped.
  lemma {:induction false} RespelledLineIsDropped(input: seq<Item>, all: seq<Row>, kept: seq<Row>, at: seq<nat>, i: nat,
                                                  j: nat)
    requires Reads(input, all) && KeepsFirsts(all, kept, at) && i < j < |all|
    requires all[i].kind.EVM? && all[j].kind.EVM? && SameSpelling(all[i].text, all[j].text)
    ensures j !in at && Repeats(kept, all[j])
    ensures input[i + 1].Fields? && all[i].text == TrimSpace(input[i + 1].fields[1])
    ensures input[j + 1].Fields? && all[j].text == TrimSpace(input[j + 1].fields[1])
  {
    assert ParseLine(input[i + 1]).row == all[i] && ParseLine(input[j + 1]).row == all[j];
    RowIsOfFields(input[i + 1]);
    RowIsOfFields(input[j + 1]);
    LinesAgreeIff(input[i + 1], input[j + 1]);
    KeptRowsCoverOnce(all, kept, at);
    assert !IsFirst(all, j);
  }

  // Dropping the duplicates is invisible: the table afterwards holds the same identities with the same contents
  // as if every parsed line had been inserted. Only the unused serial numbers differ.
  lemma {:induction false} DroppingDuplicatesIsInvisible(db: Db, all: seq<Row>, kept: seq<Row>, at: seq<nat>,
                                                         k: Identity)
    requires IdsOk(db) && KeepsFirsts(all, kept, at)
    ensures var (full, lean) := (InsertAll(db, all).0, InsertAll(db, kept).0);
            && (k in full.index <==> k in lean.index)
            && (k in full.index ==> (
                  && full.index[k] in full.rows && lean.index[k] in lean.rows
                  && full.rows[full.index[k]] == lean.rows[lean.index[k]]))
  {
    ImportLaws.IdsAreAligned(db, all);
    ImportLaws.IdsAreAligned(db, kept);
    KeptRowsCoverOnce(all, kept, at);
    if k !in db.index {
      ImportLaws.OnlyInputIsIndexed(db, all, k);
      ImportLaws.OnlyInputIsIndexed(db, kept, k);
      if p :| 0 <= p < |all| && all[p].Key() == k {
        assert Repeats(kept, all[p]);
        var i :| 0 <= i < |kept| && kept[i].Key() == all[p].Key();
        assert at[i] in at && IsFirst(all, at[i]);
        ImportLaws.FirstOccurrenceIsStored(db, all, at[i]);
        ImportLaws.FirstOccurrenceIsStored(db, kept, i);
      }
    }
  }
}
