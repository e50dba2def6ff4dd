/**
 * The logout handler of the user menu: sign out, clear local storage,
 * expire every cookie visible to the page, then navigate to the login page.
 * The cookie rewrite is modelled on strings; the writes to `document.cookie`,
 * the storage call and the router calls are recorded as effects, and the date
 * text of `new Date().toUTCString()` is a parameter.
 */
module UserMenu {
  import opened Common

  // ---------------------------------------------------------------------------
  // Splitting on a separator
  // ---------------------------------------------------------------------------

  /** `s.split(sep)`: the text between separators; the empty string gives one empty piece. */
  function Split(s: string, sep: char): (pieces: seq<string>)
    ensures |pieces| >= 1
    ensures forall i :: 0 <= i < |pieces| ==> sep !in pieces[i]
  {
    if s == [] then [""]
    else
      var rest := Split(s[1..], sep);
      if s[0] == sep then [""] + rest
      else [[s[0]] + rest[0]] + rest[1..]
  }

  /** `pieces.join(sep)`: the inverse of `Split`. */
  function Join(pieces: seq<string>, sep: char): string
    requires |pieces| >= 1
  {
    if |pieces| == 1 then pieces[0] else pieces[0] + [sep] + Join(pieces[1..], sep)
  }

  /** Splitting loses nothing: joining the pieces with the separator gives back the text. */
  lemma {:induction false} JoinSplit(s: string, sep: char)
    ensures Join(Split(s, sep), sep) == s
  {
    if s != [] {
      var rest := Split(s[1..], sep);
      JoinSplit(s[1..], sep);
      if s[0] == sep {
        assert Split(s, sep)[1..] == rest;
      } else {
        var pieces := Split(s, sep);
        if |rest| == 1 {
          assert pieces == [[s[0]] + rest[0]];
        } else {
          assert pieces[1..] == rest[1..];
          assert Join(rest, sep) == rest[0] + [sep] + Join(rest[1..], sep);
        }
      }
    }
  }

  /** The number of occurrences of a character. */
  function Occurrences(s: string, c: char): nat
  {
    if s == [] then 0 else (if s[0] == c then 1 else 0) + Occurrences(s[1..], c)
  }

  /** There is one more piece than there are separators. */
  lemma {:induction false} SplitCount(s: string, sep: char)
    ensures |Split(s, sep)| == Occurrences(s, sep) + 1
  {
    if s != [] {
      SplitCount(s[1..], sep);
    }
  }

  // ---------------------------------------------------------------------------
  // Rewriting one piece
  // ---------------------------------------------------------------------------

  /** How many space characters `^ +` matches at the front: all of them, up to the first non-space. */
  function LeadingSpaces(p: string): (n: nat)
    ensures n <= |p|
    ensures n < |p| ==> p[n] != ' '
  {
    if p != [] && p[0] == ' ' then 1 + LeadingSpaces(p[1..]) else 0
  }

  /** Every character the leading run covers is a space. */
  lemma {:induction false} LeadingSpacesAreSpaces(p: string)
    ensures forall i :: 0 <= i < LeadingSpaces(p) ==> p[i] == ' '
  {
    if p != [] && p[0] == ' ' {
      LeadingSpacesAreSpaces(p[1..]);
      assert forall i :: 1 <= i < LeadingSpaces(p) ==> p[i] == p[1..][i - 1];
    }
  }

  /** `.replace(/^ +/, "")`: the leading space characters removed, and nothing else. */
  function TrimLeadingSpaces(p: string): (t: string)
    ensures |t| <= |p|
    ensures t == [] || t[0] != ' '
  {
    p[LeadingSpaces(p)..]
  }

  /**
   * Trimming keeps the piece after its leading spaces intact: the piece is a
   * run of spaces followed by the result, which does not start with a space.
   */
  lemma TrimKeepsRest(p: string)
    ensures var t := TrimLeadingSpaces(p);
      && p == p[..|p| - |t|] + t
      && (forall i :: 0 <= i < |p| - |t| ==> p[i] == ' ')
      && (t == [] || t[0] != ' ')
  {
    var n := LeadingSpaces(p);
    LeadingSpacesAreSpaces(p);
    assert p == p[..n] + p[n..];
  }

  /** The position of the first `c`, or the length when there is none. */
  function IndexOf(s: string, c: char): (k: nat)
    ensures k <= |s|
    ensures k < |s| ==> s[k] == c
    ensures c in s ==> k < |s|
  {
    if s == [] then 0 else if s[0] == c then 0 else 1 + IndexOf(s[1..], c)
  }

  /** No `c` comes before the position found, so it is the length exactly when there is no `c`. */
  lemma {:induction false} IndexOfFirst(s: string, c: char)
    ensures forall j :: 0 <= j < IndexOf(s, c) ==> s[j] != c
    ensures IndexOf(s, c) == |s| <==> c !in s
  {
    if s != [] && s[0] != c {
      IndexOfFirst(s[1..], c);
      assert forall j :: 1 <= j < IndexOf(s, c) ==> s[j] == s[1..][j - 1];
      assert c in s <==> c in s[1..];
    }
  }

  /** The characters the regular-expression `.` does not match. */
  predicate LineTerminator(c: char)
  {
    c == '\n' || c == '\r' || c == '\U{2028}' || c == '\U{2029}'
  }

  /** How many characters `.*` takes from the front: up to the first line terminator. */
  function DotRun(s: string): (k: nat)
    ensures k <= |s|
    ensures k < |s| ==> LineTerminator(s[k])
  {
    if s == [] || LineTerminator(s[0]) then 0 else 1 + DotRun(s[1..])
  }

  /** Every character `.*` takes is outside the line terminators. */
  lemma {:induction false} DotRunSkipsLine(s: string)
    ensures forall j :: 0 <= j < DotRun(s) ==> !LineTerminator(s[j])
  {
    if s != [] && !LineTerminator(s[0]) {
      DotRunSkipsLine(s[1..]);
      assert forall j :: 1 <= j < DotRun(s) ==> s[j] == s[1..][j - 1];
    }
  }

  /** The text a matched `=.*` is replaced with. */
  function Expiry(date: string): string
  {
    "=;expires=" + date + ";path=/"
  }

  /** The name part of a cookie piece: everything before its first `=`. */
  function CookieName(t: string): string
  {
    t[..IndexOf(t, '=')]
  }

  /**
   * The replacement of the pattern `=.*` in a trimmed piece: the first `=` and the rest of
   * its line replaced by the expiry text; no `=`, no match, no change.
   */
  function ReplaceValue(t: string, date: string): (r: string)
    ensures '=' !in t ==> r == t
    ensures '=' in t ==> |CookieName(t)| + |Expiry(date)| <= |r|
  {
    var k := IndexOf(t, '=');
    if k == |t| then t else t[..k] + Expiry(date) + t[k + 1 + DotRun(t[k + 1..])..]
  }

  /** One iteration of the `forEach`: leading spaces stripped, then the value replaced. */
  function ExpireCookie(piece: string, date: string): (r: string)
    ensures '=' !in TrimLeadingSpaces(piece) ==> r == TrimLeadingSpaces(piece)
  {
    ReplaceValue(TrimLeadingSpaces(piece), date)
  }

  /** The first `c` of `a + b` is the first of `b` when `a` has none and `b` starts with one. */
  lemma {:induction false} IndexOfAfter(a: string, b: string, c: char)
    requires c !in a && |b| > 0 && b[0] == c
    ensures IndexOf(a + b, c) == |a|
  {
    if a != [] {
      assert (a + b)[1..] == a[1..] + b;
      IndexOfAfter(a[1..], b, c);
    }
  }

  /** A name without `=` followed by text that starts with `=` has exactly that name. */
  lemma NameBeforeValue(name: string, tail: string)
    requires '=' !in name && |tail| > 0 && tail[0] == '='
    ensures '=' in name + tail
    ensures CookieName(name + tail) == name
  {
    IndexOfAfter(name, tail, '=');
    assert (name + tail)[|name|] == '=';
    assert (name + tail)[..|name|] == name;
  }

  /** Expiring a piece that has a value keeps its name: the first `=` of the result ends the same name. */
  lemma ExpiredNameMatches(piece: string, date: string)
    requires '=' in TrimLeadingSpaces(piece)
    ensures '=' in ExpireCookie(piece, date)
    ensures CookieName(ExpireCookie(piece, date)) == CookieName(TrimLeadingSpaces(piece))
  {
    var t := TrimLeadingSpaces(piece);
    var k := IndexOf(t, '=');
    IndexOfFirst(t, '=');
    var name := t[..k];
    assert k < |t|;
    var tail := Expiry(date) + t[k + 1 + DotRun(t[k + 1..])..];
    assert ReplaceValue(t, date) == name + tail;
    assert ExpireCookie(piece, date) == name + tail;
    assert tail[0] == '=' by {
      assert Expiry(date)[0] == '=';
    }
    assert '=' !in name by {
      forall j | 0 <= j < |name| ensures name[j] != '=' {
        assert name[j] == t[j];
      }
    }
    NameBeforeValue(name, tail);
  }

  /**
   * On a single-line piece with a value the whole value goes: the result is
   * the trimmed name followed by `=;expires=<date>;path=/`.
   */
  lemma ExpiredSingleLine(piece: string, date: string)
    requires '=' in TrimLeadingSpaces(piece)
    requires forall i :: 0 <= i < |piece| ==> !LineTerminator(piece[i])
    ensures ExpireCookie(piece, date) == CookieName(TrimLeadingSpaces(piece)) + Expiry(date)
  {
    var t := TrimLeadingSpaces(piece);
    var k := IndexOf(t, '=');
    IndexOfFirst(t, '=');
    var rest := t[k + 1..];
    assert forall j :: 0 <= j < |rest| ==> rest[j] == piece[|piece| - |t| + k + 1 + j];
    assert DotRun(rest) == |rest|;
    assert t[k + 1 + DotRun(rest)..] == [];
  }

  // ---------------------------------------------------------------------------
  // The logout sequence
  // ---------------------------------------------------------------------------

  /**
   * The writes `document.cookie.split(";").forEach(...)` makes, one per piece,
   * in order. The callback reads the clock anew for every piece, so `dates`
   * holds one `toUTCString()` answer per piece.
   */
  method ExpireCookies(cookie: string, dates: seq<string>) returns (writes: seq<string>)
    requires |dates| == |Split(cookie, ';')|
    ensures |writes| == |Split(cookie, ';')|
    ensures forall i :: 0 <= i < |writes| ==> writes[i] == ExpireCookie(Split(cookie, ';')[i], dates[i])
  {
    var pieces := Split(cookie, ';');
    writes := [];
    var i := 0;
    while i < |pieces|
      invariant 0 <= i <= |pieces|
      invariant |writes| == i
      invariant forall j :: 0 <= j < i ==> writes[j] == ExpireCookie(pieces[j], dates[j])
    {
      writes := writes + [ExpireCookie(pieces[i], dates[i])];
      i := i + 1;
    }
  }

  /** The browser operations `handleLogout` performs after `signOut` answered. */
  datatype Effect = ClearLocalStorage | SetCookie(assignment: string) | Navigate(path: string) | Refresh

  /**
   * `handleLogout`: when `signOut` reports an error nothing further happens;
   * otherwise storage is cleared, every cookie piece is expired in order, and
   * the router goes to the login page and refreshes.
   */
  method HandleLogout(signOutError: Option<Thrown>, cookie: string, dates: seq<string>) returns (effects: seq<Effect>)
    requires |dates| == |Split(cookie, ';')|
    ensures signOutError.Some? ==> effects == []
    ensures signOutError.None? ==>
      && |effects| == |Split(cookie, ';')| + 3
      && effects[0] == ClearLocalStorage
      && (forall i :: 0 <= i < |Split(cookie, ';')| ==>
            effects[i + 1] == SetCookie(ExpireCookie(Split(cookie, ';')[i], dates[i])))
      && effects[|effects| - 2] == Navigate("/login")
      && effects[|effects| - 1] == Refresh
  {
    if signOutError.Some? {
      return [];
    }
    var writes := ExpireCookies(cookie, dates);
    var sets := seq(|writes|, i requires 0 <= i < |writes| => SetCookie(writes[i]));
    effects := [ClearLocalStorage] + sets + [Navigate("/login"), Refresh];
  }
}
