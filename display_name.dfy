/** The display-name pattern of the script, (?:(\"?(?:.*)\"?)\s)?, as
    `re.search(...).group(1)` evaluates it, and the fallback that makes the
    requester's name its address when the group is absent or empty.

    The pattern can match the empty string, so the search always succeeds at
    position 0. Group 1 is present when the optional part matches: its
    greedy `.*` runs to the first newline, and backtracking gives characters
    back until a whitespace character follows. The optional quotes belong to
    group 1 whichever way they are matched, so they never change where the
    group ends, and the code neither adds nor strips them. */
module DisplayName {
  import opened Wrappers
  import EmailAddress

  /** Python's `\s` on str patterns, that is, the characters for which
      str.isspace() holds. */
  predicate IsSpace(c: char) {
    var n := c as int;
    || 9 <= n <= 13 || 28 <= n <= 32 || n == 0x85 || n == 0xA0 || n == 0x1680
    || 0x2000 <= n <= 0x200A || n == 0x2028 || n == 0x2029 || n == 0x202F
    || n == 0x205F || n == 0x3000
  }

  /** q can end group 1: s[q] is whitespace and s[..q] holds no newline
      (`.` does not match a newline). */
  ghost predicate GroupEndAt(s: string, q: int) {
    0 <= q < |s| && IsSpace(s[q]) && forall k :: 0 <= k < q ==> s[k] != '\n'
  }

  /** Where a greedy `.*` that starts at i stops: the first newline at or
      after i, or the end of s. */
  function LineEnd(s: string, i: nat): (e: nat)
    requires i <= |s|
    ensures i <= e <= |s|
    ensures e < |s| ==> s[e] == '\n'
    ensures forall k :: i <= k < e ==> s[k] != '\n'
    decreases |s| - i
  {
    if i < |s| && s[i] != '\n' then LineEnd(s, i + 1) else i
  }

  /** The backtracking of `.*`: having given back the characters after x, it
      accepts the first position at which `\s` matches. */
  function BacktrackToSpace(s: string, x: nat): (r: Option<nat>)
    requires x <= |s|
    ensures r.Some? ==> r.value <= x && r.value < |s| && IsSpace(s[r.value])
    ensures forall q :: 0 <= q <= x && q < |s| && IsSpace(s[q]) ==> r.Some? && q <= r.value
    decreases x
  {
    if x < |s| && IsSpace(s[x]) then Some(x)
    else if x == 0 then None
    else BacktrackToSpace(s, x - 1)
  }

  /** Group 1 lies within the first line: `.` does not match a newline. */
  lemma GroupEndWithinLine(s: string, q: int)
    requires GroupEndAt(s, q)
    ensures q <= LineEnd(s, 0)
  {
  }

  /** The end of group 1: the largest q at which it can end, or None when
      there is no such q and the optional part does not match. */
  function GroupEnd(s: string): (r: Option<nat>)
    ensures r.Some? ==> GroupEndAt(s, r.value)
    ensures r.Some? ==> forall q :: GroupEndAt(s, q) ==> q <= r.value
    ensures r.None? <==> forall q :: !GroupEndAt(s, q)
  {
    var e := LineEnd(s, 0);
    var r := BacktrackToSpace(s, e);
    assert forall q :: GroupEndAt(s, q) ==> q <= e && r.Some? && q <= r.value by {
      forall q | GroupEndAt(s, q) ensures q <= e && r.Some? && q <= r.value {
        GroupEndWithinLine(s, q);
      }
    }
    assert r.Some? ==> GroupEndAt(s, r.value) by {
      if r.Some? {
        assert r.value <= e;
        assert forall k :: 0 <= k < r.value ==> s[k] != '\n';
      }
    }
    r
  }

  /** `re.search(nameRegex, s).group(1)`: the longest prefix of s that holds
      no newline and is followed by a whitespace character; None when the
      group did not take part in the match. */
  function NameGroup(s: string): (r: Option<string>)
    ensures r.Some? ==> |r.value| < |s| && r.value == s[..|r.value|]
    ensures r.Some? ==> '\n' !in r.value && IsSpace(s[|r.value|])
    ensures r.Some? ==> forall q :: GroupEndAt(s, q) ==> q <= |r.value|
    ensures r.None? <==> forall q :: !GroupEndAt(s, q)
  {
    match GroupEnd(s)
    case Some(q) => Some(s[..q])
    case None => None
  }

  /** The requester name of the script: group 1 of the display-name pattern
      on the From value, or the requester's address when that group is
      absent or empty (`if not requesterName`). */
  function RequesterName(fromValue: string, email: string): (r: string)
    ensures r == email || NameGroup(fromValue) == Some(r)
    ensures NameGroup(fromValue) == Some(r) ==> r != [] || email == []
    ensures NameGroup(fromValue).None? ==> r == email
    ensures NameGroup(fromValue).Some? && NameGroup(fromValue).value != [] ==> r == NameGroup(fromValue).value
    ensures email != [] ==> r != []
  {
    match NameGroup(fromValue)
    case Some(g) => if g == [] then email else g
    case None => email
  }

  /** A From value with no whitespace character at all (a newline counts),
      such as a bare address, gives the address as the name. */
  lemma NoSpaceMeansAddressAsName(fromValue: string, email: string)
    requires forall k :: 0 <= k < |fromValue| ==> !IsSpace(fromValue[k])
    ensures RequesterName(fromValue, email) == email
  {
    assert forall q :: !GroupEndAt(fromValue, q);
  }

  /** A newline is itself whitespace: the name then ends at the first
      newline even when no other whitespace comes before it. */
  lemma NewlineEndsName()
    ensures RequesterName("abc\ndef", "x@y.z") == "abc"
  {
    assert GroupEndAt("abc\ndef", 3);
    assert forall q :: GroupEndAt("abc\ndef", q) ==> q <= 3;
  }

  /** The display-name form `name <addr>`: when name holds no newline and
      addr is a bare address, which holds no whitespace, group 1 is name
      exactly as written, quotes included, and the requester name is name,
      or addr when name is empty. */
  lemma DisplayNameBeforeAddress(name: string, addr: string)
    requires '\n' !in name
    requires EmailAddress.IsBareAddress(addr)
    ensures NameGroup(name + " <" + addr + ">") == Some(name)
    ensures RequesterName(name + " <" + addr + ">", addr) == if name == [] then addr else name
  {
    var s := name + " <" + addr + ">";
    var n := |name|;
    EmailAddress.BareAddressInClass(addr);
    assert forall k :: 0 <= k < n ==> s[k] == name[k];
    assert s[n] == ' ';
    assert GroupEndAt(s, n);
    assert forall q :: GroupEndAt(s, q) ==> q <= n by {
      forall q | n < q < |s| ensures !IsSpace(s[q]) {
        if q == n + 1 {
          assert s[q] == '<';
        } else if q < |s| - 1 {
          assert s[q] == addr[q - n - 2];
        } else {
          assert s[q] == '>';
        }
      }
    }
    assert s[..n] == name;
  }
}
