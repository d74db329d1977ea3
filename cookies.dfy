/**
 * The cookie helper of js/scripts.js: `getCookie(name)` splits `document.cookie`
 * on "; ", takes the first row that starts with `name=`, and returns the text
 * between its first and its second `=`. The string operations it uses,
 * `split` and `startsWith`, are modelled here with the properties they need.
 */
module Cookies {
  import opened Wrappers

  predicate StartsWith(s: string, prefix: string) {
    |prefix| <= |s| && s[..|prefix|] == prefix
  }

  /** `sep` occurs in `s` at position `i`. */
  predicate At(s: string, sep: string, i: int) {
    0 <= i && i + |sep| <= |s| && s[i..i + |sep|] == sep
  }

  /** `s.split(sep)` for a non-empty separator: the text is cut at each
      occurrence of `sep`, scanning from the left. */
  function Split(s: string, sep: string): (parts: seq<string>)
    requires sep != ""
    ensures |parts| >= 1
    decreases |s|
  {
    if |s| < |sep| then [s]
    else if s[..|sep|] == sep then [""] + Split(s[|sep|..], sep)
    else
      var rest := Split(s[1..], sep);
      [[s[0]] + rest[0]] + rest[1..]
  }

  /** `parts.join(sep)` */
  function Join(parts: seq<string>, sep: string): string
    requires |parts| >= 1
    decreases |parts|
  {
    if |parts| == 1 then parts[0] else parts[0] + sep + Join(parts[1..], sep)
  }

  /** Splitting loses nothing: joining the parts again gives back the text. */
  lemma {:induction false} SplitJoin(s: string, sep: string)
    requires sep != ""
    ensures Join(Split(s, sep), sep) == s
    decreases |s|, 1
  {
    if |s| >= |sep| {
      if s[..|sep|] == sep {
        SplitJoinAtCut(s, sep);
      } else {
        SplitJoinPastChar(s, sep);
      }
    }
  }

  /** `SplitJoin` for a text that starts with the separator. */
  lemma {:induction false} SplitJoinAtCut(s: string, sep: string)
    requires sep != "" && |s| >= |sep| && s[..|sep|] == sep
    ensures Join(Split(s, sep), sep) == s
    decreases |s|, 0
  {
    var t := s[|sep|..];
    SplitJoin(t, sep);
    var rest := Split(t, sep);
    var parts := [""] + rest;
    assert Split(s, sep) == parts;
    assert parts[1..] == rest;
    assert Join(parts, sep) == "" + sep + Join(rest, sep);
    assert s == sep + t;
  }

  /** `SplitJoin` for a text that does not start with the separator. */
  lemma {:induction false} SplitJoinPastChar(s: string, sep: string)
    requires sep != "" && |s| >= |sep| && s[..|sep|] != sep
    ensures Join(Split(s, sep), sep) == s
    decreases |s|, 0
  {
    var t := s[1..];
    SplitJoin(t, sep);
    JoinGrowsHead(s[0], Split(t, sep), sep);
    assert s == [s[0]] + t;
  }

  /** Putting a character in front of the first part puts it in front of the
      joined text. */
  lemma JoinGrowsHead(c: char, parts: seq<string>, sep: string)
    requires |parts| >= 1
    ensures Join([[c] + parts[0]] + parts[1..], sep) == [c] + Join(parts, sep)
  {
    var grown := [[c] + parts[0]] + parts[1..];
    if |parts| > 1 {
      assert grown[1..] == parts[1..];
      assert Join(grown, sep) == grown[0] + sep + Join(parts[1..], sep);
    }
  }

  /** Text without the separator is a single part. */
  lemma {:induction false} SplitNoCut(s: string, sep: string)
    requires sep != ""
    requires forall j :: !At(s, sep, j)
    ensures Split(s, sep) == [s]
    decreases |s|
  {
    if |s| < |sep| {
    } else {
      assert !At(s, sep, 0);
      forall j ensures !At(s[1..], sep, j) {
        if 0 <= j {
          AtShift(s, sep, j);
        }
      }
      SplitNoCut(s[1..], sep);
      assert s == [s[0]] + s[1..];
    }
  }

  /** The first part ends where the separator first occurs; the remaining
      parts are those of the text after that occurrence. */
  lemma {:induction false} SplitFirstCut(s: string, sep: string, i: nat)
    requires sep != ""
    requires At(s, sep, i)
    requires forall j :: 0 <= j < i ==> !At(s, sep, j)
    ensures Split(s, sep) == [s[..i]] + Split(s[i + |sep|..], sep)
    decreases i
  {
    if i > 0 {
      var t := s[1..];
      assert !At(s, sep, 0);
      SplitPastChar(s, sep);
      AtShift(s, sep, i - 1);
      NoneShifted(s, sep, i);
      SplitFirstCut(t, sep, i - 1);
      assert t[i - 1 + |sep|..] == s[i + |sep|..];
      assert [s[0]] + t[..i - 1] == s[..i];
    }
  }

  /** A text that does not start with the separator keeps its first
      character in its first part. */
  lemma SplitPastChar(s: string, sep: string)
    requires sep != "" && |s| >= |sep| && !At(s, sep, 0)
    ensures var rest := Split(s[1..], sep);
            Split(s, sep) == [[s[0]] + rest[0]] + rest[1..]
  {
  }

  /** No occurrence before `i` leaves none before `i - 1` once the first
      character is dropped. */
  lemma NoneShifted(s: string, sep: string, i: nat)
    requires |s| >= 1
    requires forall j :: 0 <= j < i ==> !At(s, sep, j)
    ensures forall j :: 0 <= j < i - 1 ==> !At(s[1..], sep, j)
  {
    forall j | 0 <= j < i - 1 ensures !At(s[1..], sep, j) {
      AtShift(s, sep, j);
    }
  }

  /** Dropping the first character moves every occurrence one place left. */
  lemma AtShift(s: string, sep: string, j: nat)
    requires |s| >= 1
    ensures At(s[1..], sep, j) <==> At(s, sep, j + 1)
  {
    if j + |sep| <= |s| - 1 {
      assert s[1..][j..j + |sep|] == s[j + 1..j + 1 + |sep|];
    }
  }

  /** The separator cannot start at a character other than its first. */
  lemma NoHeadNoAt(s: string, sep: string, j: nat)
    requires sep != "" && j < |s| && s[j] != sep[0]
    ensures !At(s, sep, j)
  {
    if j + |sep| <= |s| {
      assert s[j..j + |sep|][0] == s[j];
    }
  }

  /** An occurrence of the separator gives at least two parts. */
  lemma {:induction false} SplitCuts(s: string, sep: string, i: nat)
    requires sep != ""
    requires At(s, sep, i)
    ensures |Split(s, sep)| >= 2
    decreases i
  {
    if s[..|sep|] != sep {
      assert i > 0;
      assert s[1..][i - 1..i - 1 + |sep|] == s[i..i + |sep|];
      SplitCuts(s[1..], sep, i - 1);
    }
  }

  /** Joining parts that hold no first character of the separator and
      splitting again gives the same parts. */
  lemma {:induction false} JoinSplit(parts: seq<string>, sep: string)
    requires sep != "" && |parts| >= 1
    requires forall p <- parts :: sep[0] !in p
    ensures Split(Join(parts, sep), sep) == parts
    decreases |parts|
  {
    var p := parts[0];
    assert p in parts;
    if |parts| == 1 {
      SplitWithoutSep(p, sep);
    } else {
      var tail := Join(parts[1..], sep);
      assert Join(parts, sep) == p + sep + tail;
      SplitAfterFirstPart(p, sep, tail);
      assert forall q <- parts[1..] :: q in parts;
      JoinSplit(parts[1..], sep);
      assert parts == [p] + parts[1..];
    }
  }

  /** A part without the separator's first character splits into itself. */
  lemma SplitWithoutSep(p: string, sep: string)
    requires sep != "" && sep[0] !in p
    ensures Split(p, sep) == [p]
  {
    forall j ensures !At(p, sep, j) {
      if 0 <= j < |p| {
        assert p[j] in p;
        NoHeadNoAt(p, sep, j);
      }
    }
    SplitNoCut(p, sep);
  }

  /** A first part without the separator's first character is cut off at
      the separator that follows it. */
  lemma SplitAfterFirstPart(p: string, sep: string, tail: string)
    requires sep != "" && sep[0] !in p
    ensures Split(p + sep + tail, sep) == [p] + Split(tail, sep)
  {
    var s := p + sep + tail;
    assert s[|p|..|p| + |sep|] == sep;
    forall j | 0 <= j < |p| ensures !At(s, sep, j) {
      assert s[j] == p[j] && p[j] in p;
      NoHeadNoAt(s, sep, j);
    }
    SplitFirstCut(s, sep, |p|);
    assert s[..|p|] == p;
    assert s[|p| + |sep|..] == tail;
  }

  /** The text before the first `c`, or all of it. */
  function UpTo(t: string, c: char): (r: string)
    ensures c !in r
    ensures |r| <= |t| && r == t[..|r|]
    ensures r == t || t[|r|] == c
  {
    if t == [] then []
    else if t[0] == c then []
    else [t[0]] + UpTo(t[1..], c)
  }

  lemma {:induction false} UpToWhole(t: string, c: char)
    requires c !in t
    ensures UpTo(t, c) == t
    decreases |t|
  {
    if t != [] {
      assert t[0] in t;
      assert forall x <- t[1..] :: x in t;
      UpToWhole(t[1..], c);
    }
  }

  /** The first part of a split on one character is the text up to it. */
  lemma {:induction false} SplitHead(t: string, c: char)
    ensures Split(t, [c])[0] == UpTo(t, c)
    decreases |t|
  {
    if |t| >= 1 && t[..1] != [c] {
      assert t[0] != c;
      SplitHead(t[1..], c);
    }
  }

  /** The index of the first row that starts with `prefix` (`rows.find`). */
  function FirstStartingWith(rows: seq<string>, prefix: string): (r: Option<nat>)
    ensures r.None? <==> forall j :: 0 <= j < |rows| ==> !StartsWith(rows[j], prefix)
    ensures r.Some? ==> r.value < |rows| && StartsWith(rows[r.value], prefix)
    ensures r.Some? ==> forall j :: 0 <= j < r.value ==> !StartsWith(rows[j], prefix)
  {
    if rows == [] then None
    else if StartsWith(rows[0], prefix) then Some(0)
    else
      match FirstStartingWith(rows[1..], prefix)
      case None => None
      case Some(k) => Some(k + 1)
  }

  /** `getCookie(name)` over the text of `document.cookie`, with
      `decodeURIComponent` read as the identity. */
  function GetCookie(name: string, cookie: string): (r: Option<string>)
    ensures r.None? <==> forall row <- Split(cookie, "; ") :: !StartsWith(row, name + "=")
  {
    var rows := Split(cookie, "; ");
    match FirstStartingWith(rows, name + "=")
    case None => None
    case Some(k) =>
      assert rows[k][..|name| + 1] == name + "=";
      assert At(rows[k], "=", |name|) by {
        assert rows[k][|name|..|name| + 1] == rows[k][..|name| + 1][|name|..];
      }
      SplitCuts(rows[k], "=", |name|);
      Some(Split(rows[k], "=")[1])
  }

  /** In a row that starts with `name=`, for a name without `=`, the second
      part of `split('=')` is the text after `name=` up to the next `=`. */
  lemma RowValue(name: string, row: string)
    requires '=' !in name
    requires StartsWith(row, name + "=")
    ensures |Split(row, "=")| >= 2
    ensures Split(row, "=")[1] == UpTo(row[|name| + 1..], '=')
  {
    assert row[..|name| + 1] == name + "=";
    assert At(row, "=", |name|) by {
      assert row[|name|..|name| + 1] == row[..|name| + 1][|name|..];
    }
    forall j | 0 <= j < |name| ensures !At(row, "=", j) {
      assert row[j..j + 1][0] == row[j] == name[j];
      assert name[j] in name;
    }
    SplitFirstCut(row, "=", |name|);
    SplitHead(row[|name| + 1..], '=');
  }

  /** The value found is the text after `name=` in the first matching row, cut
      at the next `=`: a value holding `=` comes back truncated. */
  lemma CookieValue(name: string, cookie: string, k: nat)
    requires '=' !in name
    requires k < |Split(cookie, "; ")|
    requires StartsWith(Split(cookie, "; ")[k], name + "=")
    requires forall j :: 0 <= j < k ==> !StartsWith(Split(cookie, "; ")[j], name + "=")
    ensures GetCookie(name, cookie) == Some(UpTo(Split(cookie, "; ")[k][|name| + 1..], '='))
  {
    var rows := Split(cookie, "; ");
    var found := FirstStartingWith(rows, name + "=");
    assert found.Some?;
    assert found.value == k;
    RowValue(name, rows[k]);
  }

  /** Among rows free of ';', the first row that starts with `name=`, placed
      after rows that do not, is the one `getCookie` reads. */
  lemma FoundRow(name: string, row: string, before: seq<string>, after: seq<string>)
    requires '=' !in name && ';' !in row && StartsWith(row, name + "=")
    requires forall r <- before + after :: ';' !in r
    requires forall r <- before :: !StartsWith(r, name + "=")
    ensures GetCookie(name, Join(before + [row] + after, "; ")) == Some(UpTo(row[|name| + 1..], '='))
  {
    var rows := before + [row] + after;
    assert forall p <- rows :: ';' !in p by {
      forall p <- rows ensures ';' !in p {
        if p != row {
          assert p in before + after;
        }
      }
    }
    JoinSplit(rows, "; ");
    forall j | 0 <= j < |before| ensures !StartsWith(rows[j], name + "=") {
      assert rows[j] == before[j] && before[j] in before;
    }
    assert rows[|before|] == row;
    CookieValue(name, Join(rows, "; "), |before|);
  }

  /** `name=value` holds no ';' when neither part does. */
  lemma RowWithoutSemicolon(name: string, value: string)
    requires ';' !in name && ';' !in value
    ensures ';' !in name + "=" + value
  {
    var row := name + "=" + value;
    forall i | 0 <= i < |row| ensures row[i] != ';' {
      if i < |name| {
        assert row[i] == name[i];
      } else if i > |name| {
        assert row[i] == value[i - |name| - 1];
      }
    }
  }

  /** A cookie written as `name=value`, with the value URI-encoded (so free of
      ';', ' ' and '='), reads back unchanged whatever other cookies stand
      around it, as long as no earlier one has the same name. */
  lemma CookieRoundTrip(name: string, value: string, before: seq<string>, after: seq<string>)
    requires '=' !in name && ';' !in name
    requires '=' !in value && ';' !in value
    requires forall row <- before + after :: ';' !in row
    requires forall row <- before :: !StartsWith(row, name + "=")
    ensures GetCookie(name, Join(before + [name + "=" + value] + after, "; ")) == Some(value)
  {
    var row := name + "=" + value;
    RowWithoutSemicolon(name, value);
    assert row[..|name| + 1] == name + "=";
    FoundRow(name, row, before, after);
    assert row[|name| + 1..] == value;
    UpToWhole(value, '=');
  }

  /** A value holding `=` comes back cut at its first `=`: for the row
      `name=head=tail`, `getCookie(name)` is `head`. */
  lemma ValueStopsAtEquals(name: string, head: string, tail: string, before: seq<string>, after: seq<string>)
    requires '=' !in name && ';' !in name
    requires '=' !in head && ';' !in head && ';' !in tail
    requires forall row <- before + after :: ';' !in row
    requires forall row <- before :: !StartsWith(row, name + "=")
    ensures GetCookie(name, Join(before + [name + "=" + head + "=" + tail] + after, "; ")) == Some(head)
  {
    var value := head + "=" + tail;
    var row := name + "=" + value;
    assert name + "=" + head + "=" + tail == row;
    RowWithoutSemicolon(head, tail);
    RowWithoutSemicolon(name, value);
    assert row[..|name| + 1] == name + "=";
    FoundRow(name, row, before, after);
    assert row[|name| + 1..] == value;
    UpToStops(head, tail, '=');
  }

  /** `UpTo` stops at the first `c`. */
  lemma {:induction false} UpToStops(head: string, tail: string, c: char)
    requires c !in head
    ensures UpTo(head + [c] + tail, c) == head
    decreases |head|
  {
    if head != [] {
      assert head[0] in head;
      assert forall x <- head[1..] :: x in head;
      assert (head + [c] + tail)[1..] == head[1..] + [c] + tail;
      UpToStops(head[1..], tail, c);
    }
  }
}
