/** `FactCheck._parse`: the independent fact check attached to a message. */
module FactChecks {
  import opened Wrappers
  import opened Raw

  /** `TextWithEntities`: a text and its formatting entities. */
  datatype RawText = RawText(text: string, entities: seq<Blob>)

  datatype RawFactCheck = RawFactCheck(
    needCheck: bool, country: Option<string>, text: Option<RawText>, hash: int)

  datatype FactCheck = FactCheck(
    text: Option<string>,
    entities: Option<seq<Nested>>,
    country: Option<string>,
    hash: Option<int>,
    needCheck: Option<bool>)

  /** `FactCheck._parse`: None for None; the text and its entities only when
      the check carries a text (an empty entity list reads as None); the
      country, hash and flag copied, a false flag staying False. */
  function Parse(f: Option<RawFactCheck>): (r: Option<FactCheck>)
    ensures r.Some? <==> f.Some?
    ensures r.Some? ==> (r.value.text.Some? <==> f.value.text.Some?)
    ensures r.Some? && r.value.text.Some? ==> r.value.text.value == f.value.text.value.text
    ensures r.Some? ==> (r.value.entities.Some? <==> f.value.text.Some? && |f.value.text.value.entities| > 0)
    ensures r.Some? && r.value.entities.Some? ==>
      r.value.entities.value == MapNested(EntityParser, f.value.text.value.entities)
    ensures r.Some? ==> && r.value.country == f.value.country
                        && r.value.hash == Some(f.value.hash)
                        && r.value.needCheck == Some(f.value.needCheck)
  {
    match f
    case None => None
    case Some(c) =>
      var text := if c.text.Some? then Some(c.text.value.text) else None;
      var entities := if c.text.Some? then NestedList(EntityParser, c.text.value.entities) else None;
      Some(FactCheck(text, entities, c.country, Some(c.hash), Some(c.needCheck)))
  }

  /** The message side: the wire object a decoded fact check reads back as. */
  function Unparse(c: FactCheck): RawFactCheck {
    var text := if c.text.Some? then Some(RawText(c.text.value, RawsOf(Items(c.entities)))) else None;
    RawFactCheck(c.needCheck == Some(true), c.country, text, if c.hash.Some? then c.hash.value else 0)
  }

  /** Decoding loses nothing: the wire object is recovered from the result. */
  lemma ParseRoundTrip(f: RawFactCheck)
    ensures Unparse(Parse(Some(f)).value) == f
  {
    if f.text.Some? {
      var es := f.text.value.entities;
      assert RawsOf(Items(NestedList(EntityParser, es))) == es;
    }
  }
}
