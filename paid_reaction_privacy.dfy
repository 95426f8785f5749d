/** `PaidReactionPrivacy._parse`: how paid reactions are shown to others. */
module PaidReactionPrivacies {
  import opened Wrappers
  import opened Raw

  datatype RawPrivacy =
    | PaidReactionPrivacyDefault
    | PaidReactionPrivacyAnonymous
    | PaidReactionPrivacyPeer(peer: Blob)
    | OtherPrivacy

  /** The decoded setting; the peer is never resolved. */
  datatype PaidReactionPrivacy = PaidReactionPrivacy(kind: string, peer: Option<Nested>)

  /** `PaidReactionPrivacy._parse`: the three known variants by type name,
      the peer variant without its peer; anything else (or nothing) is None. */
  function Parse(p: Option<RawPrivacy>): (r: Option<PaidReactionPrivacy>)
    ensures r.Some? <==> p.Some? && !p.value.OtherPrivacy?
    ensures r.Some? ==> r.value.peer.None?
    ensures r.Some? ==> (r.value.kind == "default" <==> p.value.PaidReactionPrivacyDefault?)
    ensures r.Some? ==> (r.value.kind == "anonymous" <==> p.value.PaidReactionPrivacyAnonymous?)
    ensures r.Some? ==> (r.value.kind == "peer" <==> p.value.PaidReactionPrivacyPeer?)
  {
    match p
    case Some(PaidReactionPrivacyDefault) => Some(PaidReactionPrivacy("default", None))
    case Some(PaidReactionPrivacyAnonymous) => Some(PaidReactionPrivacy("anonymous", None))
    case Some(PaidReactionPrivacyPeer(_)) => Some(PaidReactionPrivacy("peer", None))
    case _ => None
  }

  /** The wire variant a decoded setting names; the peer variant needs the
      peer it no longer has. */
  function Unparse(v: PaidReactionPrivacy, peer: Blob): Option<RawPrivacy> {
    if v.kind == "default" then Some(PaidReactionPrivacyDefault)
    else if v.kind == "anonymous" then Some(PaidReactionPrivacyAnonymous)
    else if v.kind == "peer" then Some(PaidReactionPrivacyPeer(peer))
    else None
  }

  /** The type name identifies the variant: decoding and naming back gives
      the same variant, and the same peer once it is supplied again. */
  lemma ParseRoundTrip(p: RawPrivacy)
    requires !p.OtherPrivacy?
    ensures Unparse(Parse(Some(p)).value, if p.PaidReactionPrivacyPeer? then p.peer else Blob(0)) == Some(p)
  {
  }
}
