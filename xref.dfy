/** The cross-reference decoder, Xref.UnmarshalJSON: a cross reference is
    written as one of [kanji, kana, senseIndex], [kanji, kana],
    [kanjiOrKana, senseIndex] or [kanjiOrKana], and the decoder reads it
    into three slots and sets the fields of the case it recognises. The
    three revisions (common/jmdict/xref.go, model/xref.go, database/xref.go)
    are the same decoder. */
module Xref {
  import opened Wrappers
  import opened Json
  import opened Coerce

  /** The four optional fields of a cross reference (nil is None). */
  datatype XrefFields = XrefFields(
    kanji: Option<string>,
    kana: Option<string>,
    kanjiOrKana: Option<string>,
    senseIndex: Option<int>)

  const NoFields: XrefFields := XrefFields(None, None, None, None)

  datatype XrefError =
    | NotAnArray      // json.Unmarshal refuses to fill the three slots
    | InvalidFormat   // "invalid JSON format for Xref"

  /** The three slots json.Unmarshal fills from the data: the first three
      elements of an array (missing ones stay nil, extra ones are dropped);
      null leaves all three nil. */
  function Slots(data: Json): (r: Option<seq<Json>>)
    ensures r.Some? <==> data.JArray? || data.JNull?
    ensures r.Some? ==> |r.value| == 3
    ensures data.JArray? ==> forall i :: 0 <= i < 3 ==>
      r.value[i] == if i < |data.items| then data.items[i] else JNull
  {
    match data
    case JNull => Some([JNull, JNull, JNull])
    case JArray(items) =>
      Some(seq(3, i requires 0 <= i < 3 => if i < |items| then items[i] else JNull))
    case _ => None
  }

  /** The decoder, as a value: the receiver's fields after a successful
      decode of the data, starting from `prior`. */
  function DecodeXref(data: Json, prior: XrefFields): Result<XrefFields, XrefError> {
    match Slots(data)
    case None => Err(NotAnArray)
    case Some(slot) =>
      if !slot[2].JNull? then
        Ok(prior.(kanji := ToStringPtr(slot[0]), kana := ToStringPtr(slot[1]), senseIndex := ToIntPtr(slot[2])))
      else if !slot[1].JNull? && ToStringPtr(slot[1]).Some? then
        Ok(prior.(kanji := ToStringPtr(slot[0]), kana := ToStringPtr(slot[1])))
      else if !slot[1].JNull? && ToIntPtr(slot[1]).Some? then
        Ok(prior.(kanjiOrKana := ToStringPtr(slot[0]), senseIndex := ToIntPtr(slot[1])))
      else if !slot[0].JNull? then
        Ok(prior.(kanjiOrKana := ToStringPtr(slot[0])))
      else
        Err(InvalidFormat)
  }

  function ErrorText(e: XrefError): string {
    match e
    case NotAnArray => "json: cannot unmarshal into [3]interface {}"
    case InvalidFormat => "invalid JSON format for Xref"
  }

  /** The receiver. */
  class Xref {
    var kanji: Option<string>
    var kana: Option<string>
    var kanjiOrKana: Option<string>
    var senseIndex: Option<int>

    function Value(): XrefFields
      reads this
    {
      XrefFields(kanji, kana, kanjiOrKana, senseIndex)
    }

    constructor()
      ensures Value() == NoFields
    {
      kanji, kana, kanjiOrKana, senseIndex := None, None, None, None;
    }

    /** UnmarshalJSON: on success the receiver holds the decoded fields; on
        an error it is left as it was. */
    method UnmarshalJSON(data: Json) returns (err: Option<XrefError>)
      modifies this
      ensures DecodeXref(data, old(Value())).Ok? ==> err.None? && Value() == DecodeXref(data, old(Value())).value
      ensures DecodeXref(data, old(Value())).Err? ==>
        err == Some(DecodeXref(data, old(Value())).error) && Value() == old(Value())
    {
      var fullRef := Slots(data);
      if fullRef.None? {
        return Some(NotAnArray);
      }
      var slot := fullRef.value;
      if !slot[2].JNull? {
        kanji := ToStringPtr(slot[0]);
        kana := ToStringPtr(slot[1]);
        senseIndex := ToIntPtr(slot[2]);
        return None;
      }
      if !slot[1].JNull? {
        var readingOf := ToStringPtr(slot[1]);
        var indexOf := ToIntPtr(slot[1]);
        if readingOf.Some? {
          kanji := ToStringPtr(slot[0]);
          kana := readingOf;
          return None;
        } else if indexOf.Some? {
          kanjiOrKana := ToStringPtr(slot[0]);
          senseIndex := indexOf;
          return None;
        }
      }
      if !slot[0].JNull? {
        kanjiOrKana := ToStringPtr(slot[0]);
        return None;
      }
      return Some(InvalidFormat);
    }
  }

  // ---------------------------------------------------------------------
  // The four cases.
  // ---------------------------------------------------------------------

  /** Which case applies, slot by slot, and which fields it writes; every
      other field keeps its previous value. */
  lemma XrefCases(items: seq<Json>, prior: XrefFields)
    ensures var s0 := if |items| > 0 then items[0] else JNull;
      var s1 := if |items| > 1 then items[1] else JNull;
      var s2 := if |items| > 2 then items[2] else JNull;
      var r := DecodeXref(JArray(items), prior);
      && (!s2.JNull? ==> r == Ok(prior.(kanji := ToStringPtr(s0), kana := ToStringPtr(s1), senseIndex := ToIntPtr(s2))))
      && (s2.JNull? && s1.JString? ==> r == Ok(prior.(kanji := ToStringPtr(s0), kana := Some(s1.s))))
      && (s2.JNull? && s1.JNumber? ==> r == Ok(prior.(kanjiOrKana := ToStringPtr(s0), senseIndex := Some(s1.n))))
      && (s2.JNull? && !s1.JString? && !s1.JNumber? && !s0.JNull? ==> r == Ok(prior.(kanjiOrKana := ToStringPtr(s0))))
      && (s2.JNull? && !s1.JString? && !s1.JNumber? && s0.JNull? ==> r == Err(InvalidFormat))
  {
  }

  /** Null and three nulls are the same invalid reference; anything but an
      array or null is refused before any case is tried. */
  lemma XrefErrors(prior: XrefFields, data: Json)
    ensures DecodeXref(JNull, prior) == Err(InvalidFormat)
    ensures DecodeXref(JArray([JNull, JNull, JNull]), prior) == Err(InvalidFormat)
    ensures DecodeXref(JArray([]), prior) == Err(InvalidFormat)
    ensures !data.JArray? && !data.JNull? ==> DecodeXref(data, prior) == Err(NotAnArray)
  {
  }

  /** A slot of the wrong type is not an error: it leaves the field nil. */
  lemma WrongTypeSlotIsNil(prior: XrefFields)
    ensures DecodeXref(JArray([JNumber(7), JString("にほん"), JNumber(1)]), prior)
         == Ok(prior.(kanji := None, kana := Some("にほん"), senseIndex := Some(1)))
    ensures DecodeXref(JArray([JString("日本"), JBool(true)]), prior)
         == Ok(prior.(kanjiOrKana := Some("日本")))
  {
  }

  /** The four test vectors, decoded into a fresh receiver. */
  lemma XrefTestVectors()
    ensures DecodeXref(JArray([JString("日本"), JString("にほん"), JNumber(1)]), NoFields)
         == Ok(XrefFields(Some("日本"), Some("にほん"), None, Some(1)))
    ensures DecodeXref(JArray([JString("世界"), JString("せかい")]), NoFields)
         == Ok(XrefFields(Some("世界"), Some("せかい"), None, None))
    ensures DecodeXref(JArray([JString("日本"), JNumber(2)]), NoFields)
         == Ok(XrefFields(None, None, Some("日本"), Some(2)))
    ensures DecodeXref(JArray([JString("こんにちは")]), NoFields)
         == Ok(XrefFields(None, None, Some("こんにちは"), None))
  {
  }

  // ---------------------------------------------------------------------
  // The written forms and the round trip.
  // ---------------------------------------------------------------------

  /** The four shapes a cross reference has. */
  predicate WellFormed(x: XrefFields) {
    || (x.kanji.Some? && x.kana.Some? && x.kanjiOrKana.None?)
    || (x.kanji.None? && x.kana.None? && x.kanjiOrKana.Some?)
  }

  /** How a cross reference is written in the dictionary file. */
  function EncodeXref(x: XrefFields): Json
    requires WellFormed(x)
  {
    if x.kanji.Some? then
      if x.senseIndex.Some? then JArray([JString(x.kanji.value), JString(x.kana.value), JNumber(x.senseIndex.value)])
      else JArray([JString(x.kanji.value), JString(x.kana.value)])
    else
      if x.senseIndex.Some? then JArray([JString(x.kanjiOrKana.value), JNumber(x.senseIndex.value)])
      else JArray([JString(x.kanjiOrKana.value)])
  }

  /** Every written form decodes, into a fresh receiver, to the reference it
      was written from. */
  lemma DecodeEncodedXref(x: XrefFields)
    requires WellFormed(x)
    ensures DecodeXref(EncodeXref(x), NoFields) == Ok(x)
  {
  }

  /** Decoding a written form sets exactly the fields of its case: the
      others keep what the receiver held. */
  lemma DecodeKeepsOtherFields(x: XrefFields, prior: XrefFields)
    requires WellFormed(x)
    ensures var r := DecodeXref(EncodeXref(x), prior);
      && r.Ok?
      && (x.kanji.Some? && x.senseIndex.None? ==> r.value == x.(kanjiOrKana := prior.kanjiOrKana, senseIndex := prior.senseIndex))
      && (x.kanji.Some? && x.senseIndex.Some? ==> r.value == x.(kanjiOrKana := prior.kanjiOrKana))
      && (x.kanji.None? && x.senseIndex.Some? ==> r.value == x.(kanji := prior.kanji, kana := prior.kana))
      && (x.kanji.None? && x.senseIndex.None? ==> r.value == prior.(kanjiOrKana := x.kanjiOrKana))
  {
  }
}
