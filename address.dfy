/** The bare-address pattern of the script,
      ([a-zA-Z0-9._-]+@[a-zA-Z0-9._-]+\.[a-zA-Z0-9_-]+)
    as `re.search(...).group(1)` evaluates it: start positions are tried from
    left to right, and at each start the backtracking engine takes the first
    alternative it accepts. AddressAt is the declarative reading of the
    pattern; FindAddress is proved to give its leftmost, and at that start
    longest, occurrence. */
module EmailAddress {
  import opened Wrappers

  /** The two character classes of the pattern: [a-zA-Z0-9._-] for the local
      part and the domain before its final dot, [a-zA-Z0-9_-] for the final
      label. Both are ASCII only: the pattern has no IGNORECASE flag. */
  datatype CharClass = AddrChars | LabelChars

  predicate InClass(c: char, cls: CharClass) {
    || ('a' <= c <= 'z') || ('A' <= c <= 'Z') || ('0' <= c <= '9')
    || c == '_' || c == '-'
    || (cls == AddrChars && c == '.')
  }

  /** s[lo..hi] lies inside s and each of its characters is in cls. */
  ghost predicate AllIn(s: string, lo: int, hi: int, cls: CharClass) {
    0 <= lo <= hi <= |s| && forall k :: lo <= k < hi ==> InClass(s[k], cls)
  }

  /** s[p..j] is a domain the pattern accepts: a non-empty [a-zA-Z0-9._-] run
      up to the dot at b, then a non-empty [a-zA-Z0-9_-] run up to j. */
  ghost predicate DomainAt(s: string, p: int, b: int, j: int) {
    && 0 <= p < b < |s| && s[b] == '.' && b + 1 < j
    && AllIn(s, p, b, AddrChars) && AllIn(s, b + 1, j, LabelChars)
  }

  /** s[i..j] is an occurrence of the pattern with its '@' at a and the dot
      before its final label at b. */
  ghost predicate AddressAt(s: string, i: int, a: int, b: int, j: int) {
    0 <= i < a < |s| && s[a] == '@' && AllIn(s, i, a, AddrChars) && DomainAt(s, a + 1, b, j)
  }

  /** t is exactly one occurrence of the pattern, with nothing around it. */
  ghost predicate IsBareAddress(t: string) {
    exists a, b :: AddressAt(t, 0, a, b, |t|)
  }

  /** t occurs in s at position i. */
  ghost predicate OccursAt(t: string, s: string, i: int) {
    0 <= i && i + |t| <= |s| && s[i..i + |t|] == t
  }

  /** The positions of one match: s[start..end] is group 1, its '@' is at
      `at` and the dot before its final label at `dot`. */
  datatype Match = Match(start: nat, at: nat, dot: nat, end: nat)

  /** Where a greedy `cls+` that starts at i stops. */
  function RunEnd(s: string, i: nat, cls: CharClass): (e: nat)
    requires i <= |s|
    ensures i <= e <= |s|
    ensures AllIn(s, i, e, cls)
    ensures e == |s| || !InClass(s[e], cls)
    decreases |s| - i
  {
    if i < |s| && InClass(s[i], cls) then RunEnd(s, i + 1, cls) else i
  }

  /** A run of class characters from i never extends past the greedy run. */
  lemma RunCovers(s: string, i: nat, j: int, cls: CharClass)
    requires i <= |s| && AllIn(s, i, j, cls)
    ensures j <= RunEnd(s, i, cls)
  {
  }

  /** The backtracking of the domain's greedy [a-zA-Z0-9._-]+ that started at
      p: it has given back the characters after m, and accepts the first
      length that is followed by a literal dot and then by a non-empty greedy
      [a-zA-Z0-9_-]+ (nothing follows in the pattern, so that greedy run is
      never given back). The result is the dot and the end of the match. */
  function BacktrackDomain(s: string, p: nat, m: nat): (r: Option<(nat, nat)>)
    requires AllIn(s, p, m, AddrChars)
    ensures r.Some? ==> p < r.value.0 <= m && DomainAt(s, p, r.value.0, r.value.1)
    ensures forall b, j :: b <= m && DomainAt(s, p, b, j) ==> r.Some? && j <= r.value.1
    decreases m
  {
    if m <= p then None
    else if m < |s| && s[m] == '.' && RunEnd(s, m + 1, LabelChars) > m + 1 then
      var y := RunEnd(s, m + 1, LabelChars);
      assert DomainAt(s, p, m, y);
      assert forall b, j :: b <= m && DomainAt(s, p, b, j) ==> j <= y by {
        forall b, j | b <= m && DomainAt(s, p, b, j) ensures j <= y {
          if b == m {
            RunCovers(s, m + 1, j, LabelChars);
          } else {
            assert !InClass(s[m], LabelChars);
          }
        }
      }
      Some((m, y))
    else
      BacktrackDomain(s, p, m - 1)
  }

  /** Every occurrence that starts at i has its '@' where the greedy local
      run from i stops, and its final dot inside the greedy domain run. */
  lemma OccurrenceShape(s: string, i: nat)
    requires i <= |s|
    ensures forall a, b, j :: AddressAt(s, i, a, b, j) ==>
              a == RunEnd(s, i, AddrChars) && b <= RunEnd(s, a + 1, AddrChars)
  {
    forall a, b, j | AddressAt(s, i, a, b, j)
      ensures a == RunEnd(s, i, AddrChars) && b <= RunEnd(s, a + 1, AddrChars)
    {
      RunCovers(s, i, a, AddrChars);
      RunCovers(s, a + 1, b, AddrChars);
    }
  }

  /** The pattern matched at the single start position i. The local part's
      greedy run can only be followed by '@' at its full length, since every
      shorter length is followed by a class character, which is not '@'. */
  function MatchAt(s: string, i: nat): (r: Option<Match>)
    requires i <= |s|
    ensures r.Some? ==> r.value.start == i && AddressAt(s, i, r.value.at, r.value.dot, r.value.end)
    ensures forall a, b, j :: AddressAt(s, i, a, b, j) ==> r.Some? && j <= r.value.end
  {
    OccurrenceShape(s, i);
    var k := RunEnd(s, i, AddrChars);
    if i < k < |s| && s[k] == '@' then
      match BacktrackDomain(s, k + 1, RunEnd(s, k + 1, AddrChars))
      case Some((b, j)) => Some(Match(i, k, b, j))
      case None => None
    else None
  }

  /** re.search from position i on: the first start position where the
      pattern matches, and the match found there. */
  function SearchFrom(s: string, i: nat): (r: Option<Match>)
    requires i <= |s|
    ensures r.Some? ==> i <= r.value.start && AddressAt(s, r.value.start, r.value.at, r.value.dot, r.value.end)
    ensures r.Some? ==> forall i', a, b, j :: i <= i' < r.value.start ==> !AddressAt(s, i', a, b, j)
    ensures r.Some? ==> forall a, b, j :: AddressAt(s, r.value.start, a, b, j) ==> j <= r.value.end
    ensures r.None? ==> forall i', a, b, j :: i <= i' ==> !AddressAt(s, i', a, b, j)
    decreases |s| - i
  {
    if i == |s| then None
    else
      match MatchAt(s, i)
      case Some(m) => Some(m)
      case None => SearchFrom(s, i + 1)
  }

  /** `re.search(emailRegex, s)`: the leftmost occurrence of the pattern, and
      the longest one at that start; None when there is none. */
  function FindAddress(s: string): (r: Option<Match>)
    ensures r.Some? ==> AddressAt(s, r.value.start, r.value.at, r.value.dot, r.value.end)
    ensures r.Some? ==> forall i, a, b, j :: i < r.value.start ==> !AddressAt(s, i, a, b, j)
    ensures r.Some? ==> forall a, b, j :: r.value.end < j ==> !AddressAt(s, r.value.start, a, b, j)
    ensures r.None? <==> forall i, a, b, j :: !AddressAt(s, i, a, b, j)
  {
    var r := SearchFrom(s, 0);
    assert forall i, a, b, j :: AddressAt(s, i, a, b, j) ==> 0 <= i;
    r
  }

  /** An occurrence read out of s is a bare address on its own. */
  lemma ShiftOccurrence(s: string, i: int, a: int, b: int, j: int)
    requires AddressAt(s, i, a, b, j)
    ensures AddressAt(s[i..j], 0, a - i, b - i, j - i)
  {
    var t := s[i..j];
    assert forall k :: 0 <= k < |t| ==> t[k] == s[i + k];
    assert AllIn(t, 0, a - i, AddrChars) by {
      forall k | 0 <= k < a - i ensures InClass(t[k], AddrChars) {
        assert t[k] == s[i + k];
      }
    }
    assert AllIn(t, a - i + 1, b - i, AddrChars) by {
      forall k | a - i + 1 <= k < b - i ensures InClass(t[k], AddrChars) {
        assert t[k] == s[i + k];
      }
    }
    assert AllIn(t, b - i + 1, j - i, LabelChars) by {
      forall k | b - i + 1 <= k < j - i ensures InClass(t[k], LabelChars) {
        assert t[k] == s[i + k];
      }
    }
  }

  /** `re.search(emailRegex, s).group(1)`; None stands for the AttributeError
      raised when `.group` is called on a failed search. */
  function ExtractAddress(s: string): (r: Option<string>)
    ensures r.None? <==> forall i, a, b, j :: !AddressAt(s, i, a, b, j)
    ensures r.Some? ==> IsBareAddress(r.value)
    ensures r.Some? ==> exists i :: OccursAt(r.value, s, i)
    ensures r.Some? ==> exists i :: && OccursAt(r.value, s, i)
                                   && (forall i', a, b, j :: i' < i ==> !AddressAt(s, i', a, b, j))
                                   && (forall a, b, j :: AddressAt(s, i, a, b, j) ==> j <= i + |r.value|)
  {
    match FindAddress(s)
    case Some(m) =>
      var t := s[m.start..m.end];
      ShiftOccurrence(s, m.start, m.at, m.dot, m.end);
      assert AddressAt(t, 0, m.at - m.start, m.dot - m.start, |t|);
      assert OccursAt(t, s, m.start);
      Some(t)
    case None => None
  }

  /** A bare address has exactly one '@'; its local part and the part of
      its domain before the final dot are non-empty and made of
      [a-zA-Z0-9._-]; its final label, after the last dot, is non-empty and
      has no dot. */
  lemma BareAddressParts(t: string)
    requires IsBareAddress(t)
    ensures multiset(t)['@'] == 1
    ensures exists a, b ::
              && 0 < a && a + 1 < b < |t| - 1 && t[a] == '@' && t[b] == '.'
              && (forall k :: 0 <= k < |t| && k != a ==> InClass(t[k], AddrChars))
              && (forall k :: b < k < |t| ==> t[k] != '.')
  {
    var a, b :| AddressAt(t, 0, a, b, |t|);
    assert forall k :: 0 <= k < |t| && k != a ==> InClass(t[k], AddrChars);
    SingleAt(t, a);
  }

  /** A string whose only '@' is at position a holds one '@'. */
  lemma SingleAt(t: string, a: int)
    requires 0 <= a < |t| && t[a] == '@'
    requires forall k :: 0 <= k < |t| && k != a ==> InClass(t[k], AddrChars)
    ensures multiset(t)['@'] == 1
  {
    var u, w := t[..a], t[a + 1..];
    assert t == u + [t[a]] + w;
    assert '@' !in u;
    assert '@' !in w by {
      forall k | 0 <= k < |w| ensures w[k] != '@' {
        assert w[k] == t[a + 1 + k];
      }
    }
    assert multiset(t) == multiset(u) + multiset{'@'} + multiset(w);
  }

  /** Every character of a bare address is '@' or in the address class, so
      it holds no whitespace. */
  lemma BareAddressInClass(t: string)
    requires IsBareAddress(t)
    ensures forall k :: 0 <= k < |t| ==> t[k] == '@' || InClass(t[k], AddrChars)
  {
    var a, b :| AddressAt(t, 0, a, b, |t|);
    assert forall k :: a < k < |t| ==> InClass(t[k], AddrChars);
  }

  /** An occurrence stays one when text is put around it. */
  lemma EmbedOccurrence(u: string, t: string, w: string, a: int, b: int)
    requires AddressAt(t, 0, a, b, |t|)
    ensures AddressAt(u + t + w, |u|, a + |u|, b + |u|, |u| + |t|)
  {
    var s := u + t + w;
    var n := |u|;
    assert forall k :: n <= k < n + |t| ==> s[k] == t[k - n];
    assert AllIn(s, n, a + n, AddrChars) by {
      forall k | n <= k < a + n ensures InClass(s[k], AddrChars) {
        assert s[k] == t[k - n];
      }
    }
    assert AllIn(s, a + n + 1, b + n, AddrChars) by {
      forall k | a + n + 1 <= k < b + n ensures InClass(s[k], AddrChars) {
        assert s[k] == t[k - n];
      }
    }
    assert AllIn(s, b + n + 1, |t| + n, LabelChars) by {
      forall k | b + n + 1 <= k < |t| + n ensures InClass(s[k], LabelChars) {
        assert s[k] == t[k - n];
      }
    }
  }

  /** Every character of an occurrence but its '@' is in the address class. */
  lemma AddressChars(s: string, i: int, a: int, b: int, j: int)
    requires AddressAt(s, i, a, b, j)
    ensures forall x :: i <= x < j && x != a ==> InClass(s[x], AddrChars)
  {
  }

  /** No occurrence starts before position n when s[n - 1] is outside the
      address class and no '@' comes before it. */
  lemma NoAddressBefore(s: string, n: int)
    requires 0 < n <= |s| && s[n - 1] != '@' && !InClass(s[n - 1], AddrChars)
    requires forall k :: 0 <= k < n - 1 ==> s[k] != '@'
    ensures forall i, a, b, j :: i < n ==> !AddressAt(s, i, a, b, j)
  {
    forall i, a, b, j | i < n && AddressAt(s, i, a, b, j) ensures false {
      AddressChars(s, i, a, b, j);
    }
  }

  /** A header of the form `prefix<addr>rest` whose prefix has no '@' and
      whose rest does not continue the address yields addr, for any bare
      address addr: this covers `"Display Name" <addr>`. */
  lemma ExtractFromAngleBrackets(prefix: string, addr: string, rest: string)
    requires '@' !in prefix
    requires IsBareAddress(addr)
    requires rest == [] || !InClass(rest[0], AddrChars)
    ensures ExtractAddress(prefix + "<" + addr + rest) == Some(addr)
  {
    var u := prefix + "<";
    var s := u + addr + rest;
    assert s == prefix + "<" + addr + rest;
    var i0 := |u|;
    var n := |addr|;
    var a0, b0 :| AddressAt(addr, 0, a0, b0, n);
    EmbedOccurrence(u, addr, rest, a0, b0);
    NoAddressBefore(s, i0);
    var m := FindAddress(s).value;
    assert m.start == i0 && m.end >= i0 + n;
    // The '@' of the match is the address's: the local part stops at the
    // first character outside its class. The domain then stops where the
    // address does.
    AddressChars(s, m.start, m.at, m.dot, m.end);
    assert s[i0 + a0] == '@';
    assert m.at == i0 + a0;
    assert rest != [] ==> s[i0 + n] == rest[0];
    assert m.end == i0 + n;
    assert s[i0..i0 + n] == addr;
  }
}
