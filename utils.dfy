/** app/utils.py: ObjectId parsing and printing (`to_object_id`, `str(oid)`)
    and `serialize_doc`. */
module Utils {
  import opened Common

  type Byte = b: int | 0 <= b < 256

  /** A BSON ObjectId is twelve bytes. */
  type ObjectId = s: seq<Byte> | |s| == 12 witness [0, 0, 0, 0, 0, 0, 0, 0, 0, 0, 0, 0]

  predicate IsHexDigit(c: char) {
    ('0' <= c <= '9') || ('a' <= c <= 'f') || ('A' <= c <= 'F')
  }

  predicate IsLowerHexDigit(c: char) {
    ('0' <= c <= '9') || ('a' <= c <= 'f')
  }

  function DigitValue(c: char): (v: nat)
    requires IsHexDigit(c)
    ensures v < 16
  {
    if '0' <= c <= '9' then c as int - '0' as int
    else if 'a' <= c <= 'f' then c as int - 'a' as int + 10
    else c as int - 'A' as int + 10
  }

  /** ASCII lower-casing of one hex digit, what `str(ObjectId(s))` does to `s`. */
  function LowerDigit(c: char): (d: char)
    requires IsHexDigit(c)
    ensures IsLowerHexDigit(d) && DigitValue(d) == DigitValue(c)
  {
    if 'A' <= c <= 'F' then (c as int - 'A' as int + 'a' as int) as char else c
  }

  function LowerHex(s: string): (t: string)
    requires forall i :: 0 <= i < |s| ==> IsHexDigit(s[i])
    ensures |t| == |s|
    ensures forall i :: 0 <= i < |s| ==> t[i] == LowerDigit(s[i])
  {
    seq(|s|, i requires 0 <= i < |s| => LowerDigit(s[i]))
  }

  /** The lower-case hex digit of a value below 16. */
  function HexChar(v: nat): (c: char)
    requires v < 16
    ensures IsLowerHexDigit(c) && DigitValue(c) == v
  {
    if v < 10 then ('0' as int + v) as char else ('a' as int + v - 10) as char
  }

  lemma HexCharOfDigit(c: char)
    requires IsLowerHexDigit(c)
    ensures HexChar(DigitValue(c)) == c
  {
  }

  /** Two lower-case hex digits per byte, most significant first. */
  function Hex(bs: seq<Byte>): (s: string)
    ensures |s| == 2 * |bs|
    ensures forall i :: 0 <= i < |s| ==> IsLowerHexDigit(s[i])
  {
    if bs == [] then "" else HexPair(bs[0]) + Hex(bs[1..])
  }

  function HexPair(b: Byte): (s: string)
    ensures |s| == 2 && IsLowerHexDigit(s[0]) && IsLowerHexDigit(s[1])
  {
    [HexChar(b / 16), HexChar(b % 16)]
  }

  function PairValue(hi: char, lo: char): Byte
    requires IsHexDigit(hi) && IsHexDigit(lo)
  {
    DigitValue(hi) * 16 + DigitValue(lo)
  }

  /** Printing a byte as two digits and reading them back gives the byte. */
  lemma PairRoundTrip(b: Byte)
    ensures PairValue(HexPair(b)[0], HexPair(b)[1]) == b
  {
  }

  /** Reading two digits and printing the byte gives their lower-case form. */
  lemma PairOfValue(hi: char, lo: char)
    requires IsHexDigit(hi) && IsHexDigit(lo)
    ensures HexPair(PairValue(hi, lo)) == [LowerDigit(hi), LowerDigit(lo)]
  {
    var h, l := DigitValue(hi), DigitValue(lo);
    assert (h * 16 + l) / 16 == h && (h * 16 + l) % 16 == l;
    HexCharOfDigit(LowerDigit(hi));
    HexCharOfDigit(LowerDigit(lo));
  }

  /** `bytes.fromhex` on a string of hex digit pairs. */
  function FromHex(s: string): (bs: seq<Byte>)
    requires |s| % 2 == 0
    requires forall i :: 0 <= i < |s| ==> IsHexDigit(s[i])
    ensures |bs| == |s| / 2
  {
    if s == [] then []
    else [PairValue(s[0], s[1])] + FromHex(s[2..])
  }

  /** `str(oid)`: the 24-character lower-case hex form. */
  function Str(oid: ObjectId): (s: string)
    ensures |s| == 24
    ensures forall i :: 0 <= i < |s| ==> IsLowerHexDigit(s[i])
  {
    Hex(oid)
  }

  /** What `ObjectId(value)` accepts from a string: exactly 24 hex digits. */
  predicate IsObjectIdString(value: string) {
    |value| == 24 && forall i :: 0 <= i < |value| ==> IsHexDigit(value[i])
  }

  /** `to_object_id(value, name)`: the ObjectId, or 400 "Invalid {name}.". */
  function ToObjectId(value: string, name: string): (r: Result<ObjectId>)
    ensures r.Ok? <==> IsObjectIdString(value)
    ensures r.Err? ==> r.error == HttpError(BadRequest, "Invalid " + name + ".")
  {
    if IsObjectIdString(value) then Ok(FromHex(value))
    else Err(HttpError(BadRequest, "Invalid " + name + "."))
  }

  lemma {:induction false} FromHexOfHex(bs: seq<Byte>)
    ensures FromHex(Hex(bs)) == bs
  {
    if bs != [] {
      var h := Hex(bs);
      assert h[..2] == HexPair(bs[0]) && h[2..] == Hex(bs[1..]);
      FromHexOfHex(bs[1..]);
      PairRoundTrip(bs[0]);
    }
  }

  lemma {:induction false} HexOfFromHex(s: string)
    requires |s| % 2 == 0
    requires forall i :: 0 <= i < |s| ==> IsHexDigit(s[i])
    ensures Hex(FromHex(s)) == LowerHex(s)
  {
    if s != [] {
      HexOfFromHex(s[2..]);
      PairOfValue(s[0], s[1]);
      assert LowerHex(s) == [LowerDigit(s[0]), LowerDigit(s[1])] + LowerHex(s[2..]);
    }
  }

  /** `to_object_id(str(oid), name)` gives back `oid`. */
  lemma ObjectIdRoundTrip(oid: ObjectId, name: string)
    ensures ToObjectId(Str(oid), name) == Ok(oid)
  {
    FromHexOfHex(oid);
  }

  /** A valid id string names the ObjectId whose `str` is its lower-case form,
      so two spellings that differ only in letter case name the same ObjectId. */
  lemma StrOfParsed(value: string, name: string)
    requires ToObjectId(value, name).Ok?
    ensures Str(ToObjectId(value, name).value) == LowerHex(value)
  {
    HexOfFromHex(value);
  }

  // ---------------------------------------------------------------------
  // serialize_doc

  /** The document values `serialize_doc` meets (timestamps and floats are
      carried by the typed records of module Db instead). */
  datatype Value = Oid(oid: ObjectId) | Text(text: string) | Int(n: int) | Bool(b: bool) | Null

  function DecimalDigits(n: nat): (s: string)
    ensures |s| > 0
    decreases n
  {
    if n < 10 then ["0123456789"[n]] else DecimalDigits(n / 10) + ["0123456789"[n % 10]]
  }

  /** Python's `str()` of a value. */
  function PyStr(v: Value): string {
    match v
    case Oid(o) => Str(o)
    case Text(t) => t
    case Int(n) => if n < 0 then "-" + DecimalDigits(-n) else DecimalDigits(n)
    case Bool(b) => if b then "True" else "False"
    case Null => "None"
  }

  type Doc = map<string, Value>

  /** `serialize_doc(doc)`: an empty or missing document gives `{}`; otherwise a
      copy in which `_id` is removed and `id` holds `str(_id)`. A non-empty
      document without `_id` makes `dict.pop` raise KeyError. */
  function SerializeDoc(doc: Option<Doc>): (r: Result<Doc>)
    ensures (doc.None? || doc == Some(map[])) ==> r == Ok(map[])
    ensures (doc.Some? && doc.value != map[] && "_id" !in doc.value) <==> r.Err?
    ensures r.Err? ==> r.error.code == ServerError
    ensures r.Ok? && doc.Some? && doc.value != map[] ==>
      && r.value.Keys == doc.value.Keys - {"_id"} + {"id"}
      && r.value["id"] == Text(PyStr(doc.value["_id"]))
      && forall k :: k in doc.value && k != "_id" && k != "id" ==> r.value[k] == doc.value[k]
  {
    match doc
    case None => Ok(map[])
    case Some(d) =>
      if d == map[] then Ok(map[])
      else if "_id" !in d then Err(HttpError(ServerError, "KeyError: '_id'"))
      else Ok((d - {"_id"})["id" := Text(PyStr(d["_id"]))])
  }

  /** Serialising a stored document with an ObjectId `_id` always succeeds,
      and the `id` it exposes parses back to that ObjectId. */
  lemma SerializedIdParses(d: Doc, oid: ObjectId)
    requires "_id" in d && d["_id"] == Oid(oid)
    ensures SerializeDoc(Some(d)).Ok?
    ensures SerializeDoc(Some(d)).value["id"] == Text(Str(oid))
    ensures ToObjectId(SerializeDoc(Some(d)).value["id"].text, "id") == Ok(oid)
  {
    ObjectIdRoundTrip(oid, "id");
  }
}
