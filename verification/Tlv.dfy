/**
  Length-tagged fields: two big-endian length bytes, then the field.
 */
module Tlv {
  import opened BigEndian
  import opened Bits
  import opened Options

  const FIELD_LIMIT: nat := 0x1_0000

  predicate Packable(fields: seq<Bytes>) {
    forall f | f in fields :: |f| < FIELD_LIMIT
  }

  function Field(f: Bytes): Bytes {
    Be16(|f|) + f
  }

  function Packed(fields: seq<Bytes>): Bytes {
    if fields == [] then [] else Field(fields[0]) + Packed(fields[1..])
  }

  /** None stands for the error that packing a length over 16 bits raises. */
  function PackFields(fields: seq<Bytes>): Option<Bytes> {
    if Packable(fields) then Some(Packed(fields)) else None
  }

  function Join(fields: seq<Bytes>, others: Option<seq<Bytes>>): Option<seq<Bytes>> {
    if others.None? then None else Some(fields + others.value)
  }

  lemma JoinStep(fields: seq<Bytes>, f: Bytes, others: Option<seq<Bytes>>)
    ensures Join(fields, Join([f], others)) == Join(fields + [f], others)
  {
    if others.Some? {
      assert fields + ([f] + others.value) == fields + [f] + others.value;
    }
  }

  /** The first `n` fields of the data; what follows them is ignored. */
  function Parse(data: Bytes, n: nat): Option<seq<Bytes>>
    decreases n
  {
    if n == 0 then Some([])
    else if |data| < 2 then None else
      var len := Be16Value(data[..2]);
      if |data| < 2 + len then None else Join([data[2..2 + len]], Parse(data[2 + len..], n - 1))
  }

  /** Parsing is exact: it returns the one list of `n` fields whose packing the data starts with, and
      fails when there is none. */
  lemma ParseExact(data: Bytes, n: nat, fields: seq<Bytes>)
    ensures Parse(data, n) == Some(fields) <==> |fields| == n && Packable(fields) && Packed(fields) <= data
  {
    hide Be16, Be16Value, Parse, Packed, Packable;
    if Parse(data, n) == Some(fields) {
      ParseSound(data, n);
    }
    if |fields| == n && Packable(fields) && Packed(fields) <= data {
      PackParse(fields, data[|Packed(fields)|..]);
      assert data == Packed(fields) + data[|Packed(fields)|..];
    }
  }

  lemma {:induction false} ParseSound(data: Bytes, n: nat)
    requires Parse(data, n).Some?
    ensures var fields := Parse(data, n).value;
            |fields| == n && Packable(fields) && Packed(fields) <= data
    decreases n
  {
    hide Be16, Be16Value;
    if n > 0 {
      var len := Be16Value(data[..2]);
      var first, rest := data[2..2 + len], data[2 + len..];
      ParseSound(rest, n - 1);
      FieldHead(data, first, rest);
      assert Parse(data, n).value == [first] + Parse(rest, n - 1).value;
      PackedPrefix(first, Parse(rest, n - 1).value, rest);
    }
  }

  lemma FieldHead(data: Bytes, first: Bytes, rest: Bytes)
    requires |data| >= 2 && 2 + Be16Value(data[..2]) <= |data|
    requires first == data[2..2 + Be16Value(data[..2])] && rest == data[2 + Be16Value(data[..2])..]
    ensures |first| < FIELD_LIMIT && data == Field(first) + rest
  {
    hide Be16, Be16Value;
    Be16Covers(data[..2]);
  }

  lemma PackedPrefix(first: Bytes, fields: seq<Bytes>, rest: Bytes)
    requires Packed(fields) <= rest && Packable(fields) && |first| < FIELD_LIMIT
    ensures Packed([first] + fields) <= Field(first) + rest && Packable([first] + fields)
  {
    hide Be16, Be16Value, Field;
    assert ([first] + fields)[1..] == fields;
  }

  lemma ParseNothing(data: Bytes)
    ensures Parse(data, 0) == Some([])
  {
  }

  lemma ParseField(f: Bytes, more: Bytes, n: nat)
    requires |f| < FIELD_LIMIT && n > 0
    ensures Parse(Field(f) + more, n) == Join([f], Parse(more, n - 1))
  {
    hide Be16, Be16Value;
    var data, len := Field(f) + more, |f|;
    Be16RoundTrip(len);
    assert data[..2] == Be16(len);
    assert data[2..2 + len] == f && data[2 + len..] == more;
  }

  lemma {:induction false} PackParse(fields: seq<Bytes>, more: Bytes)
    requires Packable(fields)
    ensures Parse(Packed(fields) + more, |fields|) == Some(fields)
  {
    hide Be16, Be16Value, Field, Parse;
    if fields == [] {
      ParseNothing(Packed(fields) + more);
    } else {
      var f, rest := fields[0], fields[1..];
      assert f in fields && forall g | g in rest :: g in fields;
      PackParse(rest, more);
      assert [f] + rest == fields;
      ParseField(f, Packed(rest) + more, |fields|);
      assert Packed(fields) + more == Field(f) + (Packed(rest) + more);
    }
  }

  /** Two packings of as many fields agree only if every field does, whatever follows them. */
  lemma PackedInjective(x: seq<Bytes>, y: seq<Bytes>, moreX: Bytes, moreY: Bytes)
    requires |x| == |y| && Packable(x) && Packable(y)
    requires Packed(x) + moreX == Packed(y) + moreY
    ensures x == y && moreX == moreY
  {
    hide Packed, Packable, Parse;
    var data := Packed(x) + moreX;
    ParseExact(data, |x|, x);
    ParseExact(data, |x|, y);
    assert moreX == data[|Packed(x)|..] && moreY == data[|Packed(y)|..];
  }

  lemma JoinEmpty(others: Option<seq<Bytes>>)
    ensures Join([], others) == others
  {
    assert others.Some? ==> [] + others.value == others.value;
  }

  lemma JoinNothing(fields: seq<Bytes>, data: Bytes)
    ensures Join(fields, Parse(data, 0)) == Some(fields)
  {
    assert fields + [] == fields;
  }

  /** One turn of the parser, seen from the position of its cursor. */
  lemma CursorStep(data: Bytes, pos: nat, n: nat)
    requires pos <= |data| && n > 0
    ensures var here := Parse(data[pos..], n);
            if pos + 2 > |data| then here.None? else
              var ln := Be16Value(data[pos..pos + 2]);
              if pos + 2 + ln > |data| then here.None? else
                here == Join([data[pos + 2..pos + 2 + ln]], Parse(data[pos + 2 + ln..], n - 1))
  {
    hide Be16Value;
    var rest := data[pos..];
    if |rest| >= 2 {
      assert rest[..2] == data[pos..pos + 2];
      var ln := Be16Value(rest[..2]);
      if 2 + ln <= |rest| {
        assert rest[2..2 + ln] == data[pos + 2..pos + 2 + ln] && rest[2 + ln..] == data[pos + 2 + ln..];
      }
    }
  }

  /** The fields read so far and those still ahead of the cursor make up the whole. */
  ghost predicate Reading(whole: Option<seq<Bytes>>, data: Bytes, pos: nat, left: nat, fields: seq<Bytes>) {
    pos <= |data| && whole == Join(fields, Parse(data[pos..], left))
  }

  lemma Turn(whole: Option<seq<Bytes>>, data: Bytes, pos: nat, left: nat, fields: seq<Bytes>)
    requires Reading(whole, data, pos, left, fields) && left > 0
    ensures if pos + 2 > |data| then whole.None? else
              var ln := Be16Value(data[pos..pos + 2]);
              if pos + 2 + ln > |data| then whole.None?
              else Reading(whole, data, pos + 2 + ln, left - 1, fields + [data[pos + 2..pos + 2 + ln]])
  {
    hide Be16Value, Parse;
    CursorStep(data, pos, left);
    if pos + 2 <= |data| {
      var ln := Be16Value(data[pos..pos + 2]);
      if pos + 2 + ln <= |data| {
        JoinStep(fields, data[pos + 2..pos + 2 + ln], Parse(data[pos + 2 + ln..], left - 1));
      }
    }
  }

  lemma FirstTurn(data: Bytes, n: nat)
    ensures Reading(Parse(data, n), data, 0, n, [])
  {
    assert data[0..] == data;
    JoinEmpty(Parse(data, n));
  }

  lemma LastTurn(whole: Option<seq<Bytes>>, data: Bytes, pos: nat, fields: seq<Bytes>)
    requires Reading(whole, data, pos, 0, fields)
    ensures whole == Some(fields)
  {
    JoinNothing(fields, data[pos..]);
  }

  /** _parse_tlv: the loop moves a cursor over the data. */
  method ParseTlv(data: Bytes, nFields: nat) returns (result: Option<seq<Bytes>>)
    ensures result == Parse(data, nFields)
  {
    hide *;
    var fields: seq<Bytes>, pos: nat := [], 0;
    ghost var whole := Parse(data, nFields);
    FirstTurn(data, nFields);
    for k := 0 to nFields
      invariant pos <= |data| && Reading(whole, data, pos, nFields - k, fields)
    {
      Turn(whole, data, pos, nFields - k, fields);
      if pos + 2 > |data| {
        return None;
      }
      var ln := Be16Value(data[pos..pos + 2]);
      pos := pos + 2;
      if pos + ln > |data| {
        return None;
      }
      fields := fields + [data[pos..pos + ln]];
      pos := pos + ln;
      ReadingInside(whole, data, pos, nFields - k - 1, fields);
    }
    LastTurn(whole, data, pos, fields);
    result := Some(fields);
  }

  lemma ReadingInside(whole: Option<seq<Bytes>>, data: Bytes, pos: nat, left: nat, fields: seq<Bytes>)
    requires Reading(whole, data, pos, left, fields)
    ensures pos <= |data|
  {
  }
}
