/**
 * Ticket-key extraction from the issue tracker's page address:
 * `getTicketNumber` matches `browse\/([A-Z]+-\d+)` and returns the group,
 * `isTicketPage` tests `\/browse\/[A-Z]+-\d+`.
 */
module Tickets {
  import opened Wrappers
  import opened JsText

  /** The two character classes of the key pattern: `[A-Z]` and `\d` (ASCII digits). */
  datatype CharClass = Upper | Digit

  /** `c` belongs to `cls`. */
  predicate InClass(c: char, cls: CharClass)
  {
    match cls
    case Upper => 'A' <= c <= 'Z'
    case Digit => '0' <= c <= '9'
  }

  /** A ticket key `[A-Z]+-\d+`: letters, one dash, digits. */
  ghost predicate IsTicketKey(k: string)
  {
    exists n :: 0 < n < |k| - 1 && k[n] == '-' && SplitsAt(k, n)
  }

  /** Letters before index `n` and digits after it. */
  ghost predicate SplitsAt(k: string, n: int)
    requires 0 <= n < |k|
  {
    && (forall j :: 0 <= j < n ==> InClass(k[j], Upper))
    && (forall j :: n < j < |k| ==> InClass(k[j], Digit))
  }

  /** Length of the greedy run of `cls` characters starting at `i`. */
  function Run(s: string, i: nat, cls: CharClass): (n: nat)
    requires i <= |s|
    ensures i + n <= |s|
    ensures forall k :: i <= k < i + n ==> InClass(s[k], cls)
    ensures i + n == |s| || !InClass(s[i + n], cls)
    decreases |s| - i
  {
    if i < |s| && InClass(s[i], cls) then 1 + Run(s, i + 1, cls) else 0
  }

  /** A run that is all `cls` and is not followed by a `cls` character is the greedy run. */
  lemma RunExact(s: string, i: nat, cls: CharClass, n: nat)
    requires i + n <= |s|
    requires forall k :: i <= k < i + n ==> InClass(s[k], cls)
    requires i + n == |s| || !InClass(s[i + n], cls)
    ensures Run(s, i, cls) == n
  {
  }

  /**
   * Length of the `[A-Z]+-\d+` match starting at `i`, if there is one. Both
   * quantifiers are greedy and backtracking cannot help: a dash is never a
   * letter, so the letter run must stop exactly at the dash.
   */
  function KeyAt(s: string, i: nat): (r: Option<nat>)
    requires i <= |s|
    ensures r.Some? ==> i + r.value <= |s| && IsTicketKey(s[i..i + r.value])
    ensures r.Some? ==> i + r.value == |s| || !InClass(s[i + r.value], Digit)
    ensures r.None? ==> forall len: nat :: !KeyOfLength(s, i, len)
  {
    var u := Run(s, i, Upper);
    if u == 0 || i + u == |s| || s[i + u] != '-' then
      KeyAtNone(s, i);
      None
    else
      var d := Run(s, i + u + 1, Digit);
      if d == 0 then
        KeyAtNone(s, i);
        None
      else
        assert s[i..i + u + 1 + d][u] == '-' && SplitsAt(s[i..i + u + 1 + d], u);
        Some(u + 1 + d)
  }

  /** The `len` characters from `i` form a ticket key. */
  ghost predicate KeyOfLength(s: string, i: nat, len: nat)
  {
    i + len <= |s| && IsTicketKey(s[i..i + len])
  }

  /** No key starts at `i` when the greedy letter run is empty, is not followed by a dash, or the dash is not followed by a digit. */
  lemma KeyAtNone(s: string, i: nat)
    requires i <= |s|
    requires var u := Run(s, i, Upper);
      u == 0 || i + u == |s| || s[i + u] != '-' || Run(s, i + u + 1, Digit) == 0
    ensures forall len: nat :: !KeyOfLength(s, i, len)
  {
    forall len: nat ensures !KeyOfLength(s, i, len) {
      if KeyOfLength(s, i, len) {
        KeyShape(s, i, len);
      }
    }
  }

  /** A key of any length at `i` is a greedy letter run, a dash and at least one digit. */
  lemma KeyShape(s: string, i: nat, len: nat)
    requires KeyOfLength(s, i, len)
    ensures var u := Run(s, i, Upper);
      u > 0 && i + u < |s| && s[i + u] == '-' && Run(s, i + u + 1, Digit) > 0
  {
    var k := s[i..i + len];
    var n :| 0 < n < |k| - 1 && k[n] == '-' && SplitsAt(k, n);
    assert forall j :: i <= j < i + n ==> InClass(s[j], Upper) by {
      forall j | i <= j < i + n ensures InClass(s[j], Upper) { assert k[j - i] == s[j]; }
    }
    assert s[i + n] == k[n] && s[i + n + 1] == k[n + 1];
    RunExact(s, i, Upper, n);
  }

  /** The pattern `prefix` followed by a ticket key matches at `i`. */
  predicate MatchAt(s: string, prefix: string, i: nat)
  {
    OccursAt(s, prefix, i) && KeyAt(s, i + |prefix|).Some?
  }

  /** The leftmost match at or after `i`, as `RegExp.prototype.exec` finds it. */
  function FirstMatch(s: string, prefix: string, i: nat): (r: Option<nat>)
    requires i <= |s|
    ensures r.Some? ==> i <= r.value && MatchAt(s, prefix, r.value)
    ensures r.Some? ==> forall j :: i <= j < r.value ==> !MatchAt(s, prefix, j)
    ensures r.None? ==> forall j :: i <= j ==> !MatchAt(s, prefix, j)
    decreases |s| - i
  {
    if MatchAt(s, prefix, i) then Some(i)
    else if i == |s| then None
    else FirstMatch(s, prefix, i + 1)
  }

  /** The literal parts of the two patterns: `browse\/` and `\/browse\/`. */
  const BrowsePrefix := "browse/"
  const BrowsePathPrefix := "/browse/"

  /** The key a match of `prefix` at `m` captures; `''` when there is no match. */
  function CapturedKey(href: string, prefix: string, m: Option<nat>): (key: string)
    requires m.Some? ==> MatchAt(href, prefix, m.value)
    ensures m.None? ==> key == ""
    ensures m.Some? ==> Captures(href, m.value + |prefix|, key)
  {
    match m
    case Some(i) => KeyFrom(href, i + |prefix|)
    case None => ""
  }

  /**
   * `key` is a ticket key found in `s` at `start` that the greedy digit run
   * ends: what the capture group holds after a match there.
   */
  ghost predicate Captures(s: string, start: nat, key: string)
  {
    && key != "" && IsTicketKey(key) && OccursAt(s, key, start)
    && (start + |key| == |s| || !InClass(s[start + |key|], Digit))
  }

  /** The key that `KeyAt` finds at `start`. */
  function KeyFrom(s: string, start: nat): (key: string)
    requires start <= |s| && KeyAt(s, start).Some?
    ensures Captures(s, start, key)
  {
    var key := s[start..start + KeyAt(s, start).value];
    assert |key| > 0 by { KeyNonEmpty(key); }
    key
  }

  /** A ticket key has at least a letter, the dash and a digit. */
  lemma KeyNonEmpty(k: string)
    requires IsTicketKey(k)
    ensures |k| >= 3
  {
  }

  /** `getTicketNumber`: the key following the first matching `browse/`, or `''`. */
  function GetTicketNumber(href: string): (key: string)
    ensures key != "" <==> exists i: nat :: MatchAt(href, BrowsePrefix, i)
    ensures match FirstMatch(href, BrowsePrefix, 0)
      case None => key == ""
      case Some(i) => Captures(href, i + |BrowsePrefix|, key)
  {
    CapturedKey(href, BrowsePrefix, FirstMatch(href, BrowsePrefix, 0))
  }

  /** `isTicketPage`: the address holds `/browse/` followed by a ticket key. */
  function IsTicketPage(href: string): (b: bool)
    ensures b <==> exists i: nat :: MatchAt(href, BrowsePathPrefix, i)
  {
    FirstMatch(href, BrowsePathPrefix, 0).Some?
  }

  /** On every ticket page a ticket number is found. */
  lemma TicketPageHasTicket(href: string)
    requires IsTicketPage(href)
    ensures GetTicketNumber(href) != ""
  {
    var i: nat :| MatchAt(href, BrowsePathPrefix, i);
    assert href[i + 1..i + 1 + |BrowsePrefix|] == href[i..i + |BrowsePathPrefix|][1..];
    assert MatchAt(href, BrowsePrefix, i + 1);
  }

  /** The converse fails: a `browse/` that no slash precedes yields a ticket number on a page that is not a ticket page. */
  lemma TicketWithoutTicketPage()
    ensures GetTicketNumber("xbrowse/AB-1") == "AB-1"
    ensures !IsTicketPage("xbrowse/AB-1")
  {
    SlashlessTicket("xbrowse/AB-1");
    SlashlessNotTicketPage("xbrowse/AB-1");
  }

  /** The ticket number half of `TicketWithoutTicketPage`. */
  lemma SlashlessTicket(s: string)
    requires s == "xbrowse/AB-1"
    ensures GetTicketNumber(s) == "AB-1"
  {
    assert !MatchAt(s, BrowsePrefix, 0) by { assert s[0] != BrowsePrefix[0]; }
    assert Run(s, 8, Upper) == 2 by { RunExact(s, 8, Upper, 2); }
    assert Run(s, 11, Digit) == 1 by { RunExact(s, 11, Digit, 1); }
    assert s[1..8] == BrowsePrefix;
    assert MatchAt(s, BrowsePrefix, 1);
  }

  /** The ticket page half of `TicketWithoutTicketPage`. */
  lemma SlashlessNotTicketPage(s: string)
    requires s == "xbrowse/AB-1"
    ensures !IsTicketPage(s)
  {
    var p := BrowsePathPrefix;
    assert p[0] == '/';
    assert s[..5] == "xbrow";
    forall j: nat | j + |p| <= |s| ensures s[j] != p[0] {
      assert s[j] == s[..5][j];
    }
    NoMatchWithoutLead(s, p);
  }

  /** The pattern cannot match where its first character is missing from the part of `s` it would cover. */
  lemma NoMatchWithoutLead(s: string, prefix: string)
    requires prefix != []
    requires forall j: nat :: j + |prefix| <= |s| ==> s[j] != prefix[0]
    ensures forall j: nat :: !MatchAt(s, prefix, j)
  {
    forall j: nat ensures !OccursAt(s, prefix, j) {
      if j + |prefix| <= |s| {
        assert s[j..j + |prefix|][0] == s[j];
      }
    }
  }

  /** A ticket key sitting at `start` and not followed by a digit is exactly what `KeyAt` reads there. */
  lemma KeyAtOfKey(s: string, start: nat, key: string)
    requires IsTicketKey(key) && OccursAt(s, key, start)
    requires start + |key| == |s| || !InClass(s[start + |key|], Digit)
    ensures KeyAt(s, start) == Some(|key|)
  {
    var n :| 0 < n < |key| - 1 && key[n] == '-' && SplitsAt(key, n);
    assert forall j :: start <= j < start + |key| ==> s[j] == key[j - start];
    RunExact(s, start, Upper, n);
    RunExact(s, start + n + 1, Digit, |key| - n - 1);
  }

  /** The leftmost match is at `p` when one is there and none comes before it. */
  lemma FirstMatchAt(s: string, prefix: string, p: nat)
    requires MatchAt(s, prefix, p)
    requires forall j: nat :: j < p ==> !MatchAt(s, prefix, j)
    ensures FirstMatch(s, prefix, 0) == Some(p)
  {
  }

  /** The key, then a `rest` not starting with a digit, after a `base` that holds no `b`: the key is what is extracted. */
  lemma TicketOfBrowseAddress(base: string, key: string, rest: string)
    requires forall j :: 0 <= j < |base| ==> base[j] != 'b'
    requires IsTicketKey(key)
    requires rest == [] || !InClass(rest[0], Digit)
    ensures GetTicketNumber(base + BrowsePrefix + key + rest) == key
  {
    var s := base + BrowsePrefix + key + rest;
    var p := |base|;
    var start := p + |BrowsePrefix|;
    forall j: nat | j < p ensures !MatchAt(s, BrowsePrefix, j) {
      if j + |BrowsePrefix| <= |s| {
        assert s[j..j + |BrowsePrefix|][0] == s[j] == base[j];
      }
    }
    assert s[p..start] == BrowsePrefix;
    assert s[start..start + |key|] == key;
    assert start + |key| == |s| || s[start + |key|] == rest[0];
    KeyAtOfKey(s, start, key);
    FirstMatchAt(s, BrowsePrefix, p);
  }

  /** The issue tracker's origin, as the userscript's page addresses begin. */
  const TrackerOrigin := "https://silkroadtech.atlassian.net/"

  /** The origin holds no `b`, so no `browse/` can start inside it. */
  lemma OriginHasNoB()
    ensures forall j :: 0 <= j < |TrackerOrigin| ==> TrackerOrigin[j] != 'b'
  {
  }

  /** A browse address whose `base` ends in a slash is a ticket page. */
  lemma TicketPageOfBrowseAddress(base: string, key: string, rest: string)
    requires |base| > 0 && base[|base| - 1] == '/'
    requires IsTicketKey(key)
    requires rest == [] || !InClass(rest[0], Digit)
    ensures IsTicketPage(base + BrowsePrefix + key + rest)
  {
    var s := base + BrowsePrefix + key + rest;
    var p := |base| - 1;
    var start := p + |BrowsePathPrefix|;
    assert s[p..start] == BrowsePathPrefix;
    assert s[start..start + |key|] == key;
    assert start + |key| == |s| || s[start + |key|] == rest[0];
    KeyAtOfKey(s, start, key);
    assert MatchAt(s, BrowsePathPrefix, p);
  }

  /** On the issue tracker's browse address of a key, the page is a ticket page and the key is extracted. */
  lemma TrackerBrowseAddress(key: string, rest: string)
    requires IsTicketKey(key)
    requires rest == [] || !InClass(rest[0], Digit)
    ensures IsTicketPage(TrackerOrigin + BrowsePrefix + key + rest)
    ensures GetTicketNumber(TrackerOrigin + BrowsePrefix + key + rest) == key
  {
    OriginHasNoB();
    TicketOfBrowseAddress(TrackerOrigin, key, rest);
    TicketPageOfBrowseAddress(TrackerOrigin, key, rest);
  }
}
