/** The paged reader of the observation log, over the bytes of the file.

  Decoding one record (UTF-8, JSON, schema) is an arbitrary partial function; the digest of a record
  is the record itself, which makes it injective.
 */
module LogReader {
  import opened Basics

  newtype byte = x: int | 0 <= x < 256

  const NEWLINE: byte := 10
  const MAX_RECORD := 4 * 1024 * 1024

  type Bytes = seq<byte>

  datatype CorruptionError = CorruptionError

  /** The position after the first newline at or after pos, or the end of the file. */
  function LineEnd(file: Bytes, pos: nat): (end: nat)
    requires pos <= |file|
    ensures pos <= end <= |file|
    ensures pos < |file| ==> pos < end
    ensures forall i :: pos <= i < end - 1 ==> file[i] != NEWLINE
    ensures pos < end < |file| ==> file[end - 1] == NEWLINE
    decreases |file| - pos
  {
    if pos == |file| then pos
    else if file[pos] == NEWLINE then pos + 1
    else LineEnd(file, pos + 1)
  }

  /** What a bounded readline returns. */
  function ReadLine(file: Bytes, pos: nat): (line: Bytes)
    requires pos <= |file|
    ensures |line| <= MAX_RECORD + 1 && pos + |line| <= |file| && line == file[pos..pos + |line|]
    ensures pos < |file| ==> |line| > 0
  {
    var end := LineEnd(file, pos);
    file[pos..if end - pos > MAX_RECORD + 1 then pos + MAX_RECORD + 1 else end]
  }

  predicate EndsWithNewline(line: Bytes) {
    line != [] && line[|line| - 1] == NEWLINE
  }

  /** A whole record: one newline, at its end, and not oversized. */
  predicate IsRecord(line: Bytes) {
    EndsWithNewline(line) && |line| <= MAX_RECORD && forall i :: 0 <= i < |line| - 1 ==> line[i] != NEWLINE
  }

  /** The meaning of a file that consists of whole, decodable records; nothing for any other file. */
  function Cycles<C>(file: Bytes, decode: Bytes -> Option<C>): Option<seq<C>>
    decreases |file|
  {
    if file == [] then Some([])
    else
      var line := ReadLine(file, 0);
      if |line| > MAX_RECORD || !EndsWithNewline(line) || decode(line).None? then None
      else
        match Cycles(file[|line|..], decode)
        case None => None
        case Some(rest) => Some([decode(line).value] + rest)
  }

  // ---- lines and concatenation ----

  lemma LineEndIs(file: Bytes, pos: nat, end: nat)
    requires pos < end <= |file| && file[end - 1] == NEWLINE
    requires forall i :: pos <= i < end - 1 ==> file[i] != NEWLINE
    ensures LineEnd(file, pos) == end
  {
  }

  /** A record at a position is what readline returns there. */
  lemma ReadLineIsRecord(file: Bytes, pos: nat, line: Bytes)
    requires IsRecord(line) && pos + |line| <= |file| && file[pos..pos + |line|] == line
    ensures ReadLine(file, pos) == line
  {
    forall i | pos <= i < pos + |line| - 1 ensures file[i] != NEWLINE { assert file[i] == line[i - pos]; }
    assert file[pos + |line| - 1] == line[|line| - 1];
    LineEndIs(file, pos, pos + |line|);
  }

  lemma ReadLineWhole(file: Bytes, pos: nat)
    requires pos <= |file|
    ensures var line := ReadLine(file, pos); EndsWithNewline(line) && |line| <= MAX_RECORD ==> IsRecord(line)
  {
    var end := LineEnd(file, pos);
    var line := ReadLine(file, pos);
    if EndsWithNewline(line) && |line| <= MAX_RECORD {
      assert line == file[pos..end];
      forall i | 0 <= i < |line| - 1 ensures line[i] != NEWLINE { assert line[i] == file[pos + i]; }
    }
  }

  /** A record in front adds its cycle, or makes the whole unreadable. */
  lemma CyclesOfRecord<C>(line: Bytes, rest: Bytes, decode: Bytes -> Option<C>)
    requires IsRecord(line)
    ensures Cycles(line + rest, decode) ==
      if decode(line).Some? && Cycles(rest, decode).Some? then Some([decode(line).value] + Cycles(rest, decode).value) else None
  {
    assert (line + rest)[0..0 + |line|] == line;
    ReadLineIsRecord(line + rest, 0, line);
    assert (line + rest)[|line|..] == rest;
  }

  /** A readable file that is not empty starts with a record. */
  lemma FirstRecord<C>(a: Bytes, decode: Bytes -> Option<C>) returns (line: Bytes, rest: Bytes)
    requires a != [] && Cycles(a, decode).Some?
    ensures a == line + rest && IsRecord(line) && decode(line).Some? && Cycles(rest, decode).Some?
    ensures Cycles(a, decode).value == [decode(line).value] + Cycles(rest, decode).value
  {
    line := ReadLine(a, 0);
    rest := a[|line|..];
    ReadLineWhole(a, 0);
  }

  /** Reading is compositional: what two readable files mean together is what they mean in turn. */
  lemma {:induction false} CyclesConcat<C>(a: Bytes, b: Bytes, decode: Bytes -> Option<C>)
    requires Cycles(a, decode).Some?
    ensures Cycles(a + b, decode) ==
      if Cycles(b, decode).Some? then Some(Cycles(a, decode).value + Cycles(b, decode).value) else None
    decreases |a|
  {
    if a == [] {
      assert a + b == b;
      if Cycles(b, decode).Some? { EmptyLeft(Cycles(b, decode).value); }
    } else {
      var line, rest := FirstRecord(a, decode);
      hide Cycles;
      CyclesConcat(rest, b, decode);
      Assoc(line, rest, b);
      CyclesOfRecord(line, rest + b, decode);
      if Cycles(b, decode).Some? {
        Assoc([decode(line).value], Cycles(rest, decode).value, Cycles(b, decode).value);
      }
    }
  }

  lemma EmptyLeft<T>(a: seq<T>)
    ensures [] + a == a && a + [] == a
  {
  }

  lemma Assoc<T>(a: seq<T>, b: seq<T>, c: seq<T>)
    ensures a + (b + c) == (a + b) + c
  {
  }

  lemma CyclesOfOne<C>(line: Bytes, decode: Bytes -> Option<C>)
    requires IsRecord(line) && decode(line).Some?
    ensures Cycles(line, decode) == Some([decode(line).value])
  {
    EmptyLeft(line);
    EmptyLeft([decode(line).value]);
    CyclesOfRecord(line, [], decode);
  }

  // ---- the cursor ----

  /** Where to resume, and the record that precedes that place. */
  datatype Cursor = Cursor(offset: int, anchorStart: int, anchor: Option<Bytes>)

  const START := Cursor(0, 0, None)

  predicate CursorWellFormed(c: Cursor) {
    && 0 <= c.anchorStart <= c.offset
    && (c.offset == 0 ==> c.anchorStart == 0 && c.anchor.None?)
    && (c.offset > 0 ==> c.anchorStart < c.offset && c.anchor.Some?)
  }

  /** The boundary check of the reader: the record before the cursor is still the one consumed. */
  predicate AnchorHolds(file: Bytes, c: Cursor) {
    c.offset > 0 ==>
      && 0 <= c.anchorStart <= |file|
      && var line := ReadLine(file, c.anchorStart);
         c.anchorStart + |line| == c.offset && EndsWithNewline(line) && c.anchor == Some(line)
  }

  /** One page from an intact position: at most limit whole records, fewer only at the end. */
  ghost predicate IsPage<C>(file: Bytes, from: Cursor, limit: nat, decode: Bytes -> Option<C>, cycles: seq<C>, next: Cursor) {
    && 0 <= from.offset <= next.offset <= |file|
    && Cycles(file[from.offset..next.offset], decode) == Some(cycles)
    && |cycles| <= limit
    && (|cycles| < limit ==> next.offset == |file|)
    && (cycles == [] ==> next == from)
    && CursorWellFormed(next) && AnchorHolds(file, next)
  }

  /** The record at a position cannot be returned: it is torn, oversized or undecodable. */
  predicate BadRecord<C>(file: Bytes, pos: nat, decode: Bytes -> Option<C>)
    requires pos < |file|
  {
    var line := ReadLine(file, pos);
    |line| > MAX_RECORD || !EndsWithNewline(line) || decode(line).None?
  }

  lemma PageGrows<C>(file: Bytes, from: Cursor, start: nat, raw: Bytes, decode: Bytes -> Option<C>)
    requires 0 <= from.offset <= start < |file| && Cycles(file[from.offset..start], decode).Some?
    requires raw == ReadLine(file, start) && !BadRecord(file, start, decode)
    ensures Cycles(file[from.offset..start + |raw|], decode) == Some(Cycles(file[from.offset..start], decode).value + [decode(raw).value])
    ensures AnchorHolds(file, Cursor(start + |raw|, start, Some(raw)))
  {
    hide Cycles;
    ReadLineWhole(file, start);
    CyclesOfOne(raw, decode);
    hide ReadLine;
    assert file[from.offset..start + |raw|] == file[from.offset..start] + raw;
    CyclesConcat(file[from.offset..start], raw, decode);
  }

  /** read_batch over a file that nobody has marked invalid.  An absent file is modelled by None. */
  method ReadBatch<C>(file: Option<Bytes>, from: Cursor, limit: nat, decode: Bytes -> Option<C>)
    returns (r: Result<(seq<C>, Cursor), CorruptionError>)
    ensures r.Ok? ==> CursorWellFormed(from) && 1 <= limit <= 1000
    ensures r.Ok? && file.Some? ==>
      AnchorHolds(file.value, from) && IsPage(file.value, from, limit, decode, r.value.0, r.value.1)
    ensures r.Ok? && file.None? ==> from.offset == 0 && r.value == ([], from)
    ensures r.Err? && CursorWellFormed(from) && 1 <= limit <= 1000 ==>
      match file
      case None => from.offset > 0
      case Some(bytes) =>
        || !AnchorHolds(bytes, from)
        || exists bad: nat :: FailsAt(bytes, from, limit, decode, bad)
  {
    if !CursorWellFormed(from) || !(1 <= limit <= 1000) {
      return Err(CorruptionError);
    }
    if file.None? {
      return if from.offset > 0 then Err(CorruptionError) else Ok(([], from));
    }
    var bytes := file.value;
    if !AnchorHolds(bytes, from) {
      return Err(CorruptionError);
    }
    r := ReadRecords(bytes, from, limit, decode);
  }

  /** Some record within the limit cannot be returned, and everything before it can. */
  ghost predicate FailsAt<C>(file: Bytes, from: Cursor, limit: nat, decode: Bytes -> Option<C>, bad: nat) {
    && 0 <= from.offset <= bad < |file|
    && Cycles(file[from.offset..bad], decode).Some?
    && |Cycles(file[from.offset..bad], decode).value| < limit
    && BadRecord(file, bad, decode)
  }

  /** The records from the start to the cursor have been returned, the last of them its anchor. */
  ghost predicate ReadSoFar<C>(bytes: Bytes, from: Cursor, limit: nat, decode: Bytes -> Option<C>, cycles: seq<C>, cursor: Cursor) {
    && 0 <= from.offset <= cursor.offset <= |bytes| && |cycles| <= limit
    && Cycles(bytes[from.offset..cursor.offset], decode) == Some(cycles)
    && CursorWellFormed(cursor) && AnchorHolds(bytes, cursor)
    && (cycles == [] ==> cursor == from)
  }

  lemma NothingReadYet<C>(bytes: Bytes, from: Cursor, limit: nat, decode: Bytes -> Option<C>)
    requires CursorWellFormed(from) && AnchorHolds(bytes, from) && from.offset <= |bytes|
    ensures ReadSoFar(bytes, from, limit, decode, [], from)
  {
    hide AnchorHolds;
    assert bytes[from.offset..from.offset] == [];
  }

  method ReadRecord<C>(bytes: Bytes, from: Cursor, limit: nat, decode: Bytes -> Option<C>, cycles: seq<C>, cursor: Cursor)
    returns (r: Result<(seq<C>, Cursor), CorruptionError>)
    requires ReadSoFar(bytes, from, limit, decode, cycles, cursor) && |cycles| < limit && cursor.offset < |bytes|
    ensures r.Ok? ==> ReadSoFar(bytes, from, limit, decode, r.value.0, r.value.1) && r.value.1.offset > cursor.offset
    ensures r.Err? ==> FailsAt(bytes, from, limit, decode, cursor.offset)
  {
    hide Cycles, AnchorHolds, ReadLine;
    var start := cursor.offset;
    var raw := ReadLine(bytes, start);
    if |raw| > MAX_RECORD || !EndsWithNewline(raw) || decode(raw).None? { return Err(CorruptionError); }
    PageGrows(bytes, from, start, raw, decode);
    return Ok((cycles + [decode(raw).value], Cursor(start + |raw|, start, Some(raw))));
  }

  method ReadRecords<C>(bytes: Bytes, from: Cursor, limit: nat, decode: Bytes -> Option<C>)
    returns (r: Result<(seq<C>, Cursor), CorruptionError>)
    requires CursorWellFormed(from) && AnchorHolds(bytes, from) && from.offset <= |bytes|
    ensures r.Ok? ==> IsPage(bytes, from, limit, decode, r.value.0, r.value.1)
    ensures r.Err? ==> exists bad: nat :: FailsAt(bytes, from, limit, decode, bad)
  {
    var cursor := from;
    var cycles: seq<C> := [];
    NothingReadYet(bytes, from, limit, decode);
    hide Cycles, AnchorHolds, FailsAt, CursorWellFormed;
    while |cycles| < limit && cursor.offset < |bytes|
      invariant ReadSoFar(bytes, from, limit, decode, cycles, cursor)
      decreases |bytes| - cursor.offset
    {
      var next := ReadRecord(bytes, from, limit, decode, cycles, cursor);
      if next.Err? { return next; }
      cycles, cursor := next.value.0, next.value.1;
    }
    r := Ok((cycles, cursor));
  }

  // ---- what a resumed reader relies on ----

  /** The cursor of a reader that consumed a readable prefix of the log. */
  ghost predicate AtPrefix<C>(file: Bytes, c: Cursor, decode: Bytes -> Option<C>) {
    CursorWellFormed(c) && 0 <= c.offset <= |file| && AnchorHolds(file, c) && Cycles(file[..c.offset], decode).Some?
  }

  /** Appending to the log never disturbs a cursor: its anchor still holds and its prefix means the same. */
  lemma AppendKeepsCursor<C>(file: Bytes, more: Bytes, c: Cursor, decode: Bytes -> Option<C>)
    requires AtPrefix(file, c, decode)
    ensures AtPrefix(file + more, c, decode) && Cycles((file + more)[..c.offset], decode) == Cycles(file[..c.offset], decode)
  {
    assert (file + more)[..c.offset] == file[..c.offset];
    if c.offset > 0 {
      var line := ReadLine(file, c.anchorStart);
      ReadLineShape(file, c.anchorStart);
      assert (file + more)[c.anchorStart..c.offset] == file[c.anchorStart..c.offset];
      ReadLineAgain(file + more, c.anchorStart, line);
    }
  }

  lemma ReadLineShape(file: Bytes, pos: nat)
    requires pos <= |file|
    ensures forall i :: 0 <= i < |ReadLine(file, pos)| - 1 ==> ReadLine(file, pos)[i] != NEWLINE
  {
    var line := ReadLine(file, pos);
    forall i | 0 <= i < |line| - 1 ensures line[i] != NEWLINE { assert line[i] == file[pos + i]; }
  }

  lemma ReadLineAgain(file: Bytes, pos: nat, line: Bytes)
    requires EndsWithNewline(line) && |line| <= MAX_RECORD + 1 && pos + |line| <= |file| && file[pos..pos + |line|] == line
    requires forall i :: 0 <= i < |line| - 1 ==> line[i] != NEWLINE
    ensures ReadLine(file, pos) == line
  {
    forall i | pos <= i < pos + |line| - 1 ensures file[i] != NEWLINE { assert file[i] == line[i - pos]; }
    assert file[pos + |line| - 1] == line[|line| - 1];
    LineEndIs(file, pos, pos + |line|);
  }

  /** Consecutive pages join: the consumed prefix grows by exactly the cycles returned. */
  lemma PageExtendsPrefix<C>(file: Bytes, from: Cursor, limit: nat, decode: Bytes -> Option<C>, cycles: seq<C>, next: Cursor)
    requires AtPrefix(file, from, decode) && IsPage(file, from, limit, decode, cycles, next)
    ensures AtPrefix(file, next, decode)
    ensures Cycles(file[..next.offset], decode) == Some(Cycles(file[..from.offset], decode).value + cycles)
  {
    hide Cycles, AnchorHolds;
    assert file[..next.offset] == file[..from.offset] + file[from.offset..next.offset];
    CyclesConcat(file[..from.offset], file[from.offset..next.offset], decode);
  }
}
