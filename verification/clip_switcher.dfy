/** The clip switcher: the list of minimised web pages and bots ("clips")
    and its persisted copy in the shared user defaults. Web views are
    opaque handles; JSON encoding, decoding and URL parsing are
    parameters. */
module ClipSwitcher {
  import opened Common

  const MaxNumber: nat := 6
  const BlankUrl: string := "about:blank"

  datatype AppInfo = AppInfo(appId: string, homeUri: string)

  /** What a web view controller was opened for. */
  datatype Style = AppStyle(app: AppInfo) | WebPage

  datatype WebController = WebController(handle: nat, style: Style, webViewUrl: Option<string>)

  /** A clip; `controller` is the handle of its web view controller while
      that is loaded. */
  datatype Clip = Clip(app: Option<AppInfo>, url: string, controller: Option<nat>)

  /** What survives persistence: the app and the URL. */
  datatype StoredClip = StoredClip(app: Option<AppInfo>, url: string)

  datatype Codec = Codec(
    encode: Clip -> Option<string>,
    decode: string -> Option<StoredClip>,
    parseUrl: string -> Option<string>)

  datatype Switcher = Switcher(clips: seq<Clip>, persisted: seq<string>)

  function Persisted(clips: seq<Clip>, codec: Codec): seq<string> {
    CompactMap(clips, codec.encode)
  }

  function Revive(codec: Codec): string -> Option<Clip> {
    (data: string) => match codec.decode(data)
                      case None => None
                      case Some(sc) => Some(Clip(sc.app, sc.url, None))
  }

  /** `loadClipsFromPreviousSession`: every stored entry that decodes, in
      order, without a loaded controller. */
  function LoadClips(s: Switcher, codec: Codec): (r: Switcher)
    ensures r.persisted == s.persisted
    ensures |r.clips| <= |s.persisted|
    ensures forall i :: 0 <= i < |r.clips| ==> r.clips[i].controller.None?
    ensures |r.clips| == CountSome(s.persisted, codec.decode)
    ensures forall i :: 0 <= i < |s.persisted| && codec.decode(s.persisted[i]).Some? ==>
      var k := CountSome(s.persisted[..i], codec.decode);
      k < |r.clips| && r.clips[k] == Clip(codec.decode(s.persisted[i]).value.app, codec.decode(s.persisted[i]).value.url, None)
    ensures forall c :: c in r.clips ==>
      exists i :: 0 <= i < |s.persisted| && codec.decode(s.persisted[i]) == Some(StoredClip(c.app, c.url))
  {
    var clips := CompactMap(s.persisted, Revive(codec));
    RevivedUnloaded(s.persisted, codec);
    CompactMapRank(s.persisted, Revive(codec));
    CompactMapMembership(s.persisted, Revive(codec));
    ReviveCounts(s.persisted, codec);
    Switcher(clips, s.persisted)
  }

  /** An entry revives iff it decodes, so both count the same entries. */
  lemma {:induction false} ReviveCounts(data: seq<string>, codec: Codec)
    ensures CountSome(data, Revive(codec)) == CountSome(data, codec.decode)
    ensures forall i :: 0 <= i <= |data| ==> CountSome(data[..i], Revive(codec)) == CountSome(data[..i], codec.decode)
  {
    if data != [] {
      ReviveCounts(data[1..], codec);
      forall i | 0 < i <= |data|
        ensures CountSome(data[..i], Revive(codec)) == CountSome(data[..i], codec.decode)
      {
        assert data[..i][0] == data[0] && data[..i][1..] == data[1..][..i - 1];
      }
    }
  }

  lemma {:induction false} RevivedUnloaded(data: seq<string>, codec: Codec)
    ensures forall i :: 0 <= i < |CompactMap(data, Revive(codec))| ==> CompactMap(data, Revive(codec))[i].controller.None?
  {
    if data != [] {
      RevivedUnloaded(data[1..], codec);
    }
  }

  predicate HoldsController(clips: seq<Clip>, handle: nat) {
    exists i :: 0 <= i < |clips| && clips[i].controller == Some(handle)
  }

  /** No two clips share a loaded controller. */
  ghost predicate DistinctControllers(clips: seq<Clip>) {
    forall i, j :: 0 <= i < j < |clips| && clips[i].controller.Some? ==> clips[i].controller != clips[j].controller
  }

  function ClipFor(c: WebController, codec: Codec): (clip: Clip)
    ensures clip.controller == Some(c.handle)
  {
    match c.style
    case AppStyle(app) =>
      var url := match c.webViewUrl
                 case Some(u) => u
                 case None => codec.parseUrl(app.homeUri).GetOr(BlankUrl);
      Clip(Some(app), url, Some(c.handle))
    case WebPage => Clip(None, c.webViewUrl.GetOr(BlankUrl), Some(c.handle))
  }

  /** `appendClip(with:)`: nothing if the controller is already a clip's;
      otherwise one clip at the end, and the persisted list rewritten. */
  function AppendClip(s: Switcher, c: WebController, codec: Codec): (r: Switcher)
    ensures HoldsController(s.clips, c.handle) ==> r == s
    ensures !HoldsController(s.clips, c.handle) ==> r.clips == s.clips + [ClipFor(c, codec)]
    ensures !HoldsController(s.clips, c.handle) ==> r.persisted == Persisted(r.clips, codec)
    ensures HoldsController(r.clips, c.handle)
  {
    if HoldsController(s.clips, c.handle) then s
    else
      var clips := s.clips + [ClipFor(c, codec)];
      assert clips[|s.clips|].controller == Some(c.handle);
      Switcher(clips, Persisted(clips, codec))
  }

  lemma AppendKeepsControllersDistinct(s: Switcher, c: WebController, codec: Codec)
    requires DistinctControllers(s.clips)
    ensures DistinctControllers(AppendClip(s, c, codec).clips)
  {
    if !HoldsController(s.clips, c.handle) {
      var clips := AppendClip(s, c, codec).clips;
      forall i, j | 0 <= i < j < |clips| && clips[i].controller.Some?
        ensures clips[i].controller != clips[j].controller
      {
        if j == |s.clips| {
          assert clips[i] == s.clips[i];
        }
      }
    }
  }

  /** `removeClip(at:)`: the clip goes; the stored entry at the same index
      goes too when there is one. */
  function RemoveClip(s: Switcher, index: nat): (r: Switcher)
    requires index < |s.clips|
    ensures r.clips == s.clips[..index] + s.clips[index + 1..]
    ensures index < |s.persisted| ==> r.persisted == s.persisted[..index] + s.persisted[index + 1..]
    ensures index >= |s.persisted| ==> r.persisted == s.persisted
  {
    var persisted := if index < |s.persisted| then s.persisted[..index] + s.persisted[index + 1..] else s.persisted;
    Switcher(s.clips[..index] + s.clips[index + 1..], persisted)
  }

  lemma RemoveKeepsControllersDistinct(s: Switcher, index: nat)
    requires index < |s.clips| && DistinctControllers(s.clips)
    ensures DistinctControllers(RemoveClip(s, index).clips)
  {
    var clips := RemoveClip(s, index).clips;
    forall i, j | 0 <= i < j < |clips| && clips[i].controller.Some?
      ensures clips[i].controller != clips[j].controller
    {
      var i0 := if i < index then i else i + 1;
      var j0 := if j < index then j else j + 1;
      assert clips[i] == s.clips[i0] && clips[j] == s.clips[j0];
    }
  }

  /** The persisted list mirrors the clips. */
  ghost predicate Mirrored(s: Switcher, codec: Codec) {
    s.persisted == Persisted(s.clips, codec)
  }

  /** Removing by index keeps the mirror as long as every clip encodes;
      the index is shared by both lists, so a clip that failed to encode
      would shift the stored entries against the clips. */
  lemma RemoveKeepsMirror(s: Switcher, index: nat, codec: Codec)
    requires index < |s.clips| && Mirrored(s, codec)
    requires forall i :: 0 <= i < |s.clips| ==> codec.encode(s.clips[i]).Some?
    ensures Mirrored(RemoveClip(s, index), codec)
  {
    var pre := s.clips[..index];
    var post := s.clips[index + 1..];
    var x := s.clips[index];
    assert s.clips == pre + ([x] + post);
    CompactMapAppend(pre, [x] + post, codec.encode);
    CompactMapAppend([x], post, codec.encode);
    CompactMapAppend(pre, post, codec.encode);
    assert CompactMap([x], codec.encode) == [codec.encode(x).value];
    AllEncodeLength(pre, codec);
    var p := CompactMap(pre, codec.encode);
    assert s.persisted == p + [codec.encode(x).value] + CompactMap(post, codec.encode);
    assert s.persisted[..index] == p;
    assert s.persisted[index + 1..] == CompactMap(post, codec.encode);
  }

  lemma {:induction false} AllEncodeLength(clips: seq<Clip>, codec: Codec)
    requires forall i :: 0 <= i < |clips| ==> codec.encode(clips[i]).Some?
    ensures |Persisted(clips, codec)| == |clips|
  {
    if clips != [] {
      AllEncodeLength(clips[1..], codec);
    }
  }

  lemma {:induction false} CompactMapAppend<T, U>(a: seq<T>, b: seq<T>, f: T -> Option<U>)
    ensures CompactMap(a + b, f) == CompactMap(a, f) + CompactMap(b, f)
  {
    if a != [] {
      assert (a + b)[0] == a[0];
      assert (a + b)[1..] == a[1..] + b;
      CompactMapAppend(a[1..], b, f);
    } else {
      assert a + b == b;
    }
  }

  /** `replaceClips(with:)`. */
  function ReplaceClips(s: Switcher, clips: seq<Clip>, codec: Codec): (r: Switcher)
    ensures r.clips == clips
    ensures Mirrored(r, codec)
  {
    Switcher(clips, Persisted(clips, codec))
  }

  /** The memory-warning handler drops every cached controller and keeps
      the clips, their apps and URLs, in place. */
  function DropCachedControllers(s: Switcher): (r: Switcher)
    ensures |r.clips| == |s.clips| && r.persisted == s.persisted
    ensures forall i :: 0 <= i < |r.clips| ==>
      r.clips[i] == Clip(s.clips[i].app, s.clips[i].url, None)
  {
    Switcher(seq(|s.clips|, i requires 0 <= i < |s.clips| => s.clips[i].(controller := None)), s.persisted)
  }

  /** The stored form of a clip that survives a round trip. */
  function Stored(c: Clip): Clip {
    Clip(c.app, c.url, None)
  }

  /** A codec whose decoder inverts its encoder on the app and URL. */
  ghost predicate FaithfulCodec(codec: Codec) {
    forall c: Clip :: codec.encode(c).Some? ==> codec.decode(codec.encode(c).value) == Some(StoredClip(c.app, c.url))
  }

  /** Saving and reloading gives back the clips that encode, in order,
      with their apps and URLs and no controller loaded. */
  lemma {:induction false} ReloadAfterReplace(clips: seq<Clip>, codec: Codec)
    requires FaithfulCodec(codec)
    ensures CompactMap(Persisted(clips, codec), Revive(codec))
         == CompactMap(clips, (c: Clip) => if codec.encode(c).Some? then Some(Stored(c)) else None)
  {
    if clips != [] {
      ReloadAfterReplace(clips[1..], codec);
      var c := clips[0];
      var keep := (c: Clip) => if codec.encode(c).Some? then Some(Stored(c)) else None;
      assert CompactMap(clips, keep) == (if keep(c).Some? then [keep(c).value] else []) + CompactMap(clips[1..], keep);
      if codec.encode(c).Some? {
        var data := codec.encode(c).value;
        assert Persisted(clips, codec) == [data] + Persisted(clips[1..], codec);
        assert Revive(codec)(data) == Some(Stored(c));
        assert ([data] + Persisted(clips[1..], codec))[1..] == Persisted(clips[1..], codec);
      } else {
        assert Persisted(clips, codec) == Persisted(clips[1..], codec);
      }
    }
  }

  /** Replacing the clips and loading them back in a later session. */
  lemma ReplaceThenLoad(s: Switcher, clips: seq<Clip>, codec: Codec)
    requires FaithfulCodec(codec)
    ensures LoadClips(ReplaceClips(s, clips, codec), codec).clips
         == CompactMap(clips, (c: Clip) => if codec.encode(c).Some? then Some(Stored(c)) else None)
  {
    ReloadAfterReplace(clips, codec);
  }
}
