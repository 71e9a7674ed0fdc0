/** The transcript bubble: the forwarded messages a transcript carries and
    the one-line digests shown for the first few of them. Decoding JSON and
    the localised placeholder texts are parameters. */
module Transcript {
  import opened Common

  const MaxNumberOfDigestLines: nat := 4

  /** One forwarded message as stored in the transcript's content. */
  datatype LocalContent = LocalContent(name: Option<string>, category: string, content: Option<string>)

  /** The localised placeholders, by kind. */
  datatype Placeholders = Placeholders(
    photo: string, video: string, file: string, sticker: string, contact: string,
    audio: string, live: string, location: string, unknown: string)

  /** The decoders the view model relies on. */
  datatype Decoders = Decoders(
    contents: string -> Option<seq<LocalContent>>,
    cardTitle: string -> Option<string>)

  /** The content of a transcript message: undecodable or absent content is
      an empty transcript. */
  function Contents(content: Option<string>, dec: Decoders): (r: seq<LocalContent>)
    ensures content.None? ==> r == []
    ensures content.Some? && dec.contents(content.value).None? ==> r == []
    ensures content.Some? && dec.contents(content.value).Some? ==> r == dec.contents(content.value).value
  {
    match content
    case None => []
    case Some(text) => dec.contents(text).GetOr([])
  }

  /** Whether a category string is the signal or plain variant of a kind. */
  predicate IsKind(category: string, kind: string) {
    category == "SIGNAL_" + kind || category == "PLAIN_" + kind
  }

  /** The part of a digest after the sender's name. */
  function DigestBody(c: LocalContent, text: Placeholders, dec: Decoders): string {
    if IsKind(c.category, "TEXT") || IsKind(c.category, "POST") then c.content.GetOr(" ")
    else if IsKind(c.category, "IMAGE") then text.photo
    else if IsKind(c.category, "VIDEO") then text.video
    else if IsKind(c.category, "DATA") then text.file
    else if IsKind(c.category, "STICKER") then text.sticker
    else if IsKind(c.category, "CONTACT") then text.contact
    else if IsKind(c.category, "AUDIO") then text.audio
    else if IsKind(c.category, "LIVE") then text.live
    else if IsKind(c.category, "LOCATION") then text.location
    else if c.category == "APP_CARD" then
      (match c.content
       case None => ""
       case Some(json) =>
         match dec.cardTitle(json)
         case None => ""
         case Some(title) => "[" + title + "]")
    else text.unknown
  }

  function NamePrefix(name: Option<string>): string {
    match name
    case None => ""
    case Some(n) => n + ": "
  }

  /** `digest(of:)`. */
  function Digest(c: LocalContent, text: Placeholders, dec: Decoders): (d: string)
    ensures c.name.Some? ==> HasPrefix(d, c.name.value + ": ")
    ensures HasPrefix(d, NamePrefix(c.name)) && d[|NamePrefix(c.name)|..] == DigestBody(c, text, dec)
  {
    NamePrefix(c.name) + DigestBody(c, text, dec)
  }

  /** The digests of the first `limit` contents, in order. */
  function DigestsUpTo(cs: seq<LocalContent>, limit: nat, text: Placeholders, dec: Decoders): (r: seq<string>)
    ensures |r| == if |cs| < limit then |cs| else limit
    ensures forall i :: 0 <= i < |r| ==> r[i] == Digest(cs[i], text, dec)
  {
    if cs == [] || limit == 0 then []
    else [Digest(cs[0], text, dec)] + DigestsUpTo(cs[1..], limit - 1, text, dec)
  }

  /** The view model's stored state. */
  datatype TranscriptView = TranscriptView(contents: seq<LocalContent>, digests: seq<string>)

  function NewTranscriptView(content: Option<string>, text: Placeholders, dec: Decoders): (v: TranscriptView)
    ensures v.contents == Contents(content, dec)
    ensures |v.digests| <= MaxNumberOfDigestLines
    ensures |v.digests| <= |v.contents|
    ensures forall i :: 0 <= i < |v.digests| ==> v.digests[i] == Digest(v.contents[i], text, dec)
  {
    var cs := Contents(content, dec);
    TranscriptView(cs, DigestsUpTo(cs, MaxNumberOfDigestLines, text, dec))
  }

  /** Only the first four forwarded messages matter to the digests. */
  lemma {:induction false} DigestsIgnoreTail(cs: seq<LocalContent>, more: seq<LocalContent>, limit: nat, text: Placeholders, dec: Decoders)
    requires |cs| >= limit
    ensures DigestsUpTo(cs + more, limit, text, dec) == DigestsUpTo(cs, limit, text, dec)
  {
    if limit > 0 {
      assert (cs + more)[1..] == cs[1..] + more;
      DigestsIgnoreTail(cs[1..], more, limit - 1, text, dec);
    }
  }

  /** Text and post digests quote the content, falling back to one space. */
  lemma TextDigest(c: LocalContent, text: Placeholders, dec: Decoders)
    requires IsKind(c.category, "TEXT") || IsKind(c.category, "POST")
    ensures Digest(c, text, dec) == NamePrefix(c.name) + (if c.content.Some? then c.content.value else " ")
  {
  }

  /** Each media kind, in its signal and its plain variant, is digested as
      its own localised placeholder after the sender's name. */
  lemma MediaDigest(c: LocalContent, text: Placeholders, dec: Decoders)
    ensures IsKind(c.category, "IMAGE") ==> Digest(c, text, dec) == NamePrefix(c.name) + text.photo
    ensures IsKind(c.category, "VIDEO") ==> Digest(c, text, dec) == NamePrefix(c.name) + text.video
    ensures IsKind(c.category, "DATA") ==> Digest(c, text, dec) == NamePrefix(c.name) + text.file
    ensures IsKind(c.category, "STICKER") ==> Digest(c, text, dec) == NamePrefix(c.name) + text.sticker
    ensures IsKind(c.category, "CONTACT") ==> Digest(c, text, dec) == NamePrefix(c.name) + text.contact
    ensures IsKind(c.category, "AUDIO") ==> Digest(c, text, dec) == NamePrefix(c.name) + text.audio
    ensures IsKind(c.category, "LIVE") ==> Digest(c, text, dec) == NamePrefix(c.name) + text.live
    ensures IsKind(c.category, "LOCATION") ==> Digest(c, text, dec) == NamePrefix(c.name) + text.location
  {
    KindNamed(c.category, "TEXT");
    KindNamed(c.category, "POST");
    KindNamed(c.category, "IMAGE");
    KindNamed(c.category, "VIDEO");
    KindNamed(c.category, "DATA");
    KindNamed(c.category, "STICKER");
    KindNamed(c.category, "CONTACT");
    KindNamed(c.category, "AUDIO");
    KindNamed(c.category, "LIVE");
    KindNamed(c.category, "LOCATION");
  }

  /** The kind a signal or plain category names, if it is one. */
  function KindName(category: string): Option<string> {
    if HasPrefix(category, "SIGNAL_") then Some(category[7..])
    else if HasPrefix(category, "PLAIN_") then Some(category[6..])
    else None
  }

  /** A category is a variant of a kind exactly when it names that kind, so
      it is a variant of at most one. */
  lemma KindNamed(category: string, kind: string)
    ensures IsKind(category, kind) ==> KindName(category) == Some(kind)
  {
    assert ("SIGNAL_" + kind)[..7] == "SIGNAL_" && ("SIGNAL_" + kind)[7..] == kind;
    assert ("PLAIN_" + kind)[..6] == "PLAIN_" && ("PLAIN_" + kind)[6..] == kind;
    assert "PLAIN_"[0] != "SIGNAL_"[0];
  }

  /** An app card contributes its bracketed title when it decodes and
      nothing otherwise. */
  lemma AppCardDigest(c: LocalContent, text: Placeholders, dec: Decoders)
    requires c.category == "APP_CARD"
    ensures c.content.Some? && dec.cardTitle(c.content.value).Some? ==>
      Digest(c, text, dec) == NamePrefix(c.name) + "[" + dec.cardTitle(c.content.value).value + "]"
    ensures c.content.None? || dec.cardTitle(c.content.value).None? ==>
      Digest(c, text, dec) == NamePrefix(c.name)
  {
    KindHasFamilyPrefix(c.category, "TEXT");
    KindHasFamilyPrefix(c.category, "POST");
    KindHasFamilyPrefix(c.category, "IMAGE");
    KindHasFamilyPrefix(c.category, "VIDEO");
    KindHasFamilyPrefix(c.category, "DATA");
    KindHasFamilyPrefix(c.category, "STICKER");
    KindHasFamilyPrefix(c.category, "CONTACT");
    KindHasFamilyPrefix(c.category, "AUDIO");
    KindHasFamilyPrefix(c.category, "LIVE");
    KindHasFamilyPrefix(c.category, "LOCATION");
  }

  /** Both variants of a kind carry their family prefix. */
  lemma KindHasFamilyPrefix(category: string, kind: string)
    ensures IsKind(category, kind) ==> HasPrefix(category, "SIGNAL_") || HasPrefix(category, "PLAIN_")
  {
    assert ("SIGNAL_" + kind)[..7] == "SIGNAL_";
    assert ("PLAIN_" + kind)[..6] == "PLAIN_";
  }

  /** A category that names no known kind gives the unknown text. */
  lemma UnknownDigest(c: LocalContent, text: Placeholders, dec: Decoders)
    requires !HasPrefix(c.category, "SIGNAL_") && !HasPrefix(c.category, "PLAIN_") && c.category != "APP_CARD"
    ensures Digest(c, text, dec) == NamePrefix(c.name) + text.unknown
  {
    KindHasFamilyPrefix(c.category, "TEXT");
    KindHasFamilyPrefix(c.category, "POST");
    KindHasFamilyPrefix(c.category, "IMAGE");
    KindHasFamilyPrefix(c.category, "VIDEO");
    KindHasFamilyPrefix(c.category, "DATA");
    KindHasFamilyPrefix(c.category, "STICKER");
    KindHasFamilyPrefix(c.category, "CONTACT");
    KindHasFamilyPrefix(c.category, "AUDIO");
    KindHasFamilyPrefix(c.category, "LIVE");
    KindHasFamilyPrefix(c.category, "LOCATION");
  }

  /** Transcript text is never scanned for links. */
  function LinkRanges(s: string): (r: seq<(nat, nat)>)
    ensures |r| == 0
  {
    []
  }
}
