/** Which screen the app opens on: a chain of checks over the stored flags,
    the first one that applies deciding. */
module InitialScreen {
  import opened Common

  /** The stored flags the chain reads. */
  datatype Launch = Launch(
    isClockSkewed: bool,
    rootIsClockSkew: bool,
    fullName: Option<string>,
    canRestoreChat: bool,
    needsUpgrade: bool,
    isPrekeyLoaded: bool,
    isSessionSynchronized: bool,
    isCircleSynchronized: bool)

  /** The clock-skew screen is either the one already showing, told that
      the check failed again, or a new one after bottom sheets are closed. */
  datatype Screen =
    | ClockSkew(reused: bool)
    | Username
    | Restore
    | DatabaseUpgrade
    | SignalLoading
    | HomeContainer

  /** The characters Foundation's whitespace-and-newline set contains. */
  predicate IsWhitespace(c: char) {
    ('\t' <= c <= '\r') || c == ' ' || c == '\U{85}' || c == '\U{A0}' || c == '\U{1680}'
    || ('\U{2000}' <= c <= '\U{200A}') || c == '\U{2028}' || c == '\U{2029}'
    || c == '\U{202F}' || c == '\U{205F}' || c == '\U{3000}'
  }

  /** The number of whitespace characters `s` starts with. */
  function LeadingBlanks(s: string): (n: nat)
    ensures n <= |s|
    ensures n < |s| ==> !IsWhitespace(s[n])
  {
    if s != [] && IsWhitespace(s[0]) then 1 + LeadingBlanks(s[1..]) else 0
  }

  lemma {:induction false} LeadingBlanksAreBlank(s: string)
    ensures forall i :: 0 <= i < LeadingBlanks(s) ==> IsWhitespace(s[i])
  {
    if s != [] && IsWhitespace(s[0]) {
      LeadingBlanksAreBlank(s[1..]);
      forall i | 1 <= i < LeadingBlanks(s) ensures IsWhitespace(s[i]) {
        assert s[i] == s[1..][i - 1];
      }
    }
  }

  /** The number of whitespace characters `s` ends with. */
  function TrailingBlanks(s: string): (n: nat)
    ensures n <= |s|
    ensures n < |s| ==> !IsWhitespace(s[|s| - 1 - n])
  {
    if s != [] && IsWhitespace(s[|s| - 1]) then 1 + TrailingBlanks(s[..|s| - 1]) else 0
  }

  lemma {:induction false} TrailingBlanksStop(s: string)
    requires s != [] && !IsWhitespace(s[0])
    ensures TrailingBlanks(s) < |s|
  {
    if |s| > 1 && IsWhitespace(s[|s| - 1]) {
      TrailingBlanksStop(s[..|s| - 1]);
    }
  }

  function TrimLeading(s: string): (r: string)
    ensures HasSuffix(s, r)
    ensures r != [] ==> !IsWhitespace(r[0])
  {
    s[LeadingBlanks(s)..]
  }

  function TrimTrailing(s: string): (r: string)
    ensures HasPrefix(s, r)
    ensures r != [] ==> !IsWhitespace(r[|r| - 1])
  {
    s[..|s| - TrailingBlanks(s)]
  }

  /** `trimmingCharacters(in: .whitespacesAndNewlines)`. */
  function Trim(s: string): (r: string)
    ensures |r| <= |s|
    ensures r != [] ==> !IsWhitespace(r[0]) && !IsWhitespace(r[|r| - 1])
  {
    TrimTrailing(TrimLeading(s))
  }

  /** A name trims to nothing exactly when it is made of whitespace. */
  lemma TrimEmptyIffBlank(s: string)
    ensures Trim(s) == [] <==> forall i :: 0 <= i < |s| ==> IsWhitespace(s[i])
  {
    var l := TrimLeading(s);
    if l == [] {
      LeadingBlanksAreBlank(s);
    } else {
      TrailingBlanksStop(l);
      assert !IsWhitespace(s[LeadingBlanks(s)]);
    }
  }

  predicate NeedsUsername(fullName: Option<string>) {
    match fullName
    case None => true
    case Some(name) => Trim(name) == []
  }

  predicate NeedsSignalLoading(l: Launch) {
    !l.isPrekeyLoaded || !l.isSessionSynchronized || !l.isCircleSynchronized
  }

  /** `makeInitialViewController`. */
  function InitialScreenFor(l: Launch): (s: Screen)
    ensures l.isClockSkewed <==> s.ClockSkew?
    ensures s.ClockSkew? ==> s.reused == l.rootIsClockSkew
    ensures s == Username <==> !l.isClockSkewed && NeedsUsername(l.fullName)
    ensures s == Restore <==> !l.isClockSkewed && !NeedsUsername(l.fullName) && l.canRestoreChat
    ensures s == DatabaseUpgrade <==>
      !l.isClockSkewed && !NeedsUsername(l.fullName) && !l.canRestoreChat && l.needsUpgrade
    ensures s == SignalLoading <==>
      !l.isClockSkewed && !NeedsUsername(l.fullName) && !l.canRestoreChat && !l.needsUpgrade && NeedsSignalLoading(l)
  {
    if l.isClockSkewed then ClockSkew(l.rootIsClockSkew)
    else if NeedsUsername(l.fullName) then Username
    else if l.canRestoreChat then Restore
    else if l.needsUpgrade then DatabaseUpgrade
    else if NeedsSignalLoading(l) then SignalLoading
    else HomeContainer
  }

  /** Home is reached only when every check passes: no clock skew, a
      non-blank name, nothing to restore or upgrade, and the prekeys,
      sessions and circles all in place. */
  lemma HomeOnlyWhenReady(l: Launch)
    ensures InitialScreenFor(l) == HomeContainer <==>
      !l.isClockSkewed && l.fullName.Some? && (exists i :: 0 <= i < |l.fullName.value| && !IsWhitespace(l.fullName.value[i]))
      && !l.canRestoreChat && !l.needsUpgrade
      && l.isPrekeyLoaded && l.isSessionSynchronized && l.isCircleSynchronized
  {
    if l.fullName.Some? {
      TrimEmptyIffBlank(l.fullName.value);
    }
  }

  /** Clock skew wins whatever the other flags say. */
  lemma ClockSkewFirst(l: Launch, m: Launch)
    requires l.isClockSkewed && l.rootIsClockSkew == m.rootIsClockSkew
    requires m == l.(fullName := m.fullName, canRestoreChat := m.canRestoreChat, needsUpgrade := m.needsUpgrade,
                     isPrekeyLoaded := m.isPrekeyLoaded, isSessionSynchronized := m.isSessionSynchronized,
                     isCircleSynchronized := m.isCircleSynchronized)
    ensures InitialScreenFor(l) == InitialScreenFor(m)
  {
  }
}
