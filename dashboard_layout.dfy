/** The two string helpers of frontend/src/layouts/DashboardLayout.tsx: the
    avatar initials and the name shown in the sidebar. Whitespace and upper
    case are those of ASCII. */
module DashboardLayout {
  import opened Base
  import opened AuthContext

  predicate AllSpace(s: string)
  {
    forall i :: 0 <= i < |s| ==> IsSpace(s[i])
  }

  /** The end of s[..stop] without its trailing whitespace. */
  function TextEnd(s: string, stop: nat): (k: nat)
    requires stop <= |s|
    ensures k <= stop
    ensures forall m :: k <= m < stop ==> IsSpace(s[m])
    ensures k > 0 ==> !IsSpace(s[k - 1])
    decreases stop
  {
    if stop == 0 || !IsSpace(s[stop - 1]) then stop else TextEnd(s, stop - 1)
  }

  /** String.prototype.trim: the text from the first to the last
      non-whitespace character. */
  function Trim(s: string): (r: string)
    ensures r == "" <==> AllSpace(s)
    ensures r != "" ==> !IsSpace(r[0]) && !IsSpace(r[|r| - 1])
  {
    var i := WordFrom(s, 0);
    if i == |s| then ""
    else
      var j := TextEnd(s, |s|);
      assert i < j;
      s[i..j]
  }

  /** trim removes whitespace at both ends and nothing else. */
  lemma TrimShape(s: string) returns (i: nat)
    ensures i + |Trim(s)| <= |s| && s[i..i + |Trim(s)|] == Trim(s)
    ensures AllSpace(s[..i]) && AllSpace(s[i + |Trim(s)|..])
  {
    i := WordFrom(s, 0);
    if i < |s| {
      var j := TextEnd(s, |s|);
      assert Trim(s) == s[i..j];
      assert i + |Trim(s)| == j;
    }
  }

  /** Index of the first whitespace at or after `from`, or |s|. */
  function SpaceFrom(s: string, from: nat): (k: nat)
    requires from <= |s|
    ensures from <= k <= |s|
    ensures forall m :: from <= m < k ==> !IsSpace(s[m])
    ensures k < |s| ==> IsSpace(s[k])
    decreases |s| - from
  {
    if from == |s| || IsSpace(s[from]) then from else SpaceFrom(s, from + 1)
  }

  /** Index of the first non-whitespace at or after `from`, or |s|. */
  function WordFrom(s: string, from: nat): (k: nat)
    requires from <= |s|
    ensures from <= k <= |s|
    ensures forall m :: from <= m < k ==> IsSpace(s[m])
    ensures k < |s| ==> !IsSpace(s[k])
    decreases |s| - from
  {
    if from == |s| || !IsSpace(s[from]) then from else WordFrom(s, from + 1)
  }

  /** The scan for a word stops at the first non-whitespace. */
  lemma WordFromStops(s: string, from: nat, m: nat)
    requires from <= m < |s| && !IsSpace(s[m])
    ensures WordFrom(s, from) <= m
  {
  }

  /** The pieces of s from index `from` on: up to the next whitespace, then
      the pieces after the run of whitespace that follows. */
  function SplitFrom(s: string, from: nat): (parts: seq<string>)
    requires from <= |s|
    ensures |parts| >= 1
    decreases |s| - from
  {
    var i := SpaceFrom(s, from);
    if i == |s| then [s[from..]]
    else
      var j := WordFrom(s, i);
      [s[from..i]] + SplitFrom(s, j)
  }

  /** s.split(/\s+/): the pieces between maximal runs of whitespace, with an
      empty piece before a leading run and after a trailing one. */
  function SplitWs(s: string): (parts: seq<string>)
    ensures |parts| >= 1
  {
    SplitFrom(s, 0)
  }

  /** From a non-whitespace position of a string that ends in
      non-whitespace, every piece is non-empty. */
  lemma {:induction false} PartsFromNonEmpty(s: string, from: nat)
    requires from < |s| && !IsSpace(s[from]) && !IsSpace(s[|s| - 1])
    ensures forall p :: p in SplitFrom(s, from) ==> p != ""
    decreases |s| - from
  {
    var i := SpaceFrom(s, from);
    if i < |s| {
      WordFromStops(s, i, |s| - 1);
      PartsFromNonEmpty(s, WordFrom(s, i));
    }
  }

  /** A trimmed, non-empty string splits into non-empty words. */
  lemma SplitPartsNonEmpty(s: string)
    requires s != "" && !IsSpace(s[0]) && !IsSpace(s[|s| - 1])
    ensures forall p :: p in SplitWs(s) ==> p != ""
  {
    PartsFromNonEmpty(s, 0);
  }

  /** With no whitespace there is one piece, the whole string. */
  lemma SplitWithoutSpace(s: string)
    requires forall m :: 0 <= m < |s| ==> !IsSpace(s[m])
    ensures SplitWs(s) == [s]
  {
  }

  /** The first piece runs up to the first whitespace. */
  lemma SplitFirstPart(s: string)
    ensures SplitWs(s)[0] == s[..SpaceFrom(s, 0)]
  {
  }

  /** From any position at or before the last whitespace k, the last piece
      is the text after k, and there are at least two pieces. */
  lemma {:induction false} LastPartFrom(s: string, from: nat, k: nat)
    requires from <= k < |s| && IsSpace(s[k])
    requires forall m :: k < m < |s| ==> !IsSpace(s[m])
    ensures |SplitFrom(s, from)| >= 2
    ensures SplitFrom(s, from)[|SplitFrom(s, from)| - 1] == s[k + 1..]
    decreases |s| - from
  {
    var i := SpaceFrom(s, from);
    assert i <= k;
    if k + 1 < |s| {
      WordFromStops(s, i, k + 1);
    }
    var j := WordFrom(s, i);
    assert SplitFrom(s, from) == [s[from..i]] + SplitFrom(s, j);
    if j == k + 1 {
      assert SpaceFrom(s, j) == |s|;
    } else {
      LastPartFrom(s, j, k);
    }
  }

  /** The last piece is the text after the last whitespace, and there are at
      least two pieces as soon as there is any whitespace. */
  lemma SplitLastPart(s: string, k: nat)
    requires k < |s| && IsSpace(s[k])
    requires forall m :: k < m < |s| ==> !IsSpace(s[m])
    ensures |SplitWs(s)| >= 2
    ensures SplitWs(s)[|SplitWs(s)| - 1] == s[k + 1..]
  {
    LastPartFrom(s, 0, k);
  }

  /** The initials of a trimmed, non-empty name: the first letters of its
      first and last words, or of its only word. */
  function NameInitials(t: string): (r: string)
    requires t != "" && !IsSpace(t[0]) && !IsSpace(t[|t| - 1])
    ensures 1 <= |r| <= 2 && r[0] == ToUpper(t[0])
  {
    SplitPartsNonEmpty(t);
    SplitFirstPart(t);
    var parts := SplitWs(t);
    assert parts[0] in parts && parts[|parts| - 1] in parts;
    if |parts| >= 2 then UpperString([parts[0][0], parts[|parts| - 1][0]])
    else UpperString([parts[0][0]])
  }

  /** getInitials(name, email). */
  function GetInitials(name: Option<string>, email: Option<string>): (r: string)
    ensures 1 <= |r| <= 2
    ensures (name.None? || AllSpace(name.value)) && email.Some? && email.value != "" ==>
      r == [ToUpper(email.value[0])]
    ensures (name.None? || AllSpace(name.value)) && (email.None? || email.value == "") ==> r == "U"
    ensures name.Some? && !AllSpace(name.value) ==> r[0] == ToUpper(Trim(name.value)[0])
  {
    if name.Some? && name.value != "" && Trim(name.value) != "" then NameInitials(Trim(name.value))
    else if email.Some? && email.value != "" then UpperString([email.value[0]])
    else "U"
  }

  /** A name of several words gives the upper-cased first letter of the first
      word and of the last word: the first character of the trimmed name and
      the character after its last whitespace. */
  lemma InitialsOfSeveralWords(name: string, email: Option<string>, k: nat)
    requires k < |Trim(name)| && IsSpace(Trim(name)[k])
    requires forall m :: k < m < |Trim(name)| ==> !IsSpace(Trim(name)[m])
    ensures var t := Trim(name);
      GetInitials(Some(name), email) == [ToUpper(t[0]), ToUpper(t[k + 1])]
  {
    var t := Trim(name);
    assert name != "";
    assert GetInitials(Some(name), email) == NameInitials(t);
    NameInitialsOfSeveralWords(t, k);
  }

  /** The initials of a trimmed name whose last whitespace is at k. */
  lemma NameInitialsOfSeveralWords(t: string, k: nat)
    requires t != "" && !IsSpace(t[0]) && !IsSpace(t[|t| - 1])
    requires k < |t| && IsSpace(t[k])
    requires forall m :: k < m < |t| ==> !IsSpace(t[m])
    ensures NameInitials(t) == [ToUpper(t[0]), ToUpper(t[k + 1])]
  {
    FirstLettersOfWords(t, k);
    var parts := SplitWs(t);
    var pair := [parts[0][0], parts[|parts| - 1][0]];
    assert pair == [t[0], t[k + 1]];
    assert NameInitials(t) == UpperString(pair);
  }

  /** The first letters of the first and last words of a trimmed name with a
      last whitespace at k. */
  lemma FirstLettersOfWords(t: string, k: nat)
    requires t != "" && !IsSpace(t[0]) && !IsSpace(t[|t| - 1])
    requires k < |t| && IsSpace(t[k])
    requires forall m :: k < m < |t| ==> !IsSpace(t[m])
    ensures var parts := SplitWs(t);
      && |parts| >= 2 && parts[0] != "" && parts[|parts| - 1] != ""
      && parts[0][0] == t[0] && parts[|parts| - 1][0] == t[k + 1]
  {
    SplitLastPart(t, k);
    SplitFirstPart(t);
    SplitPartsNonEmpty(t);
    var parts := SplitWs(t);
    assert parts[0] in parts;
  }

  /** A one-word name gives its upper-cased first letter. */
  lemma InitialsOfOneWord(name: string, email: Option<string>)
    requires Trim(name) != ""
    requires forall m :: 0 <= m < |Trim(name)| ==> !IsSpace(Trim(name)[m])
    ensures GetInitials(Some(name), email) == [ToUpper(Trim(name)[0])]
  {
    assert name != "";
    SplitWithoutSpace(Trim(name));
  }

  /** email.split("@")[0]: the text before the first "@", or all of it. */
  function BeforeAt(email: string): (r: string)
    ensures |r| <= |email| && r == email[..|r|]
    ensures '@' !in r
    ensures |r| < |email| ==> email[|r|] == '@'
  {
    if email == [] || email[0] == '@' then [] else [email[0]] + BeforeAt(email[1..])
  }

  /** `user?.name || user?.email.split("@")[0] || "User"`. */
  function DisplayName(user: Option<User>): (r: string)
    ensures r != ""
    ensures user.None? ==> r == "User"
    ensures user.Some? && user.value.name != "" ==> r == user.value.name
    ensures user.Some? && user.value.name == "" ==>
      r == if BeforeAt(user.value.email) != "" then BeforeAt(user.value.email) else "User"
  {
    match user
    case None => "User"
    case Some(u) =>
      if u.name != "" then u.name
      else
        var local := BeforeAt(u.email);
        if local != "" then local else "User"
  }

  /** A name made only of whitespace is still shown as the display name,
      while the initials ignore it and come from the email. */
  lemma BlankNameShownButNotInitialled(u: User)
    requires u.name != "" && AllSpace(u.name)
    ensures DisplayName(Some(u)) == u.name
    ensures GetInitials(Some(u.name), Some(u.email)) == if u.email != "" then [ToUpper(u.email[0])] else "U"
  {
  }
}
