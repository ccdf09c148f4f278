/** Container identification in the swarm service: the short container id
    is taken from the control-group listing, with the host name and a fixed
    placeholder as fallbacks. The file read and the host-name lookup are
    inputs, `None` when they fail. */
module Container {
  import opened Wrappers

  /** Length of a full container id, the `{64}` of the pattern. */
  const FullIdLength: nat := 64
  /** Length of the short form returned to clients. */
  const ShortIdLength: nat := 12
  const UnknownContainer: string := "unknown-container"

  /** The character class `[0-9a-f]`: lower-case hexadecimal digits only. */
  predicate IsLowerHex(c: char) {
    ('0' <= c <= '9') || ('a' <= c <= 'f')
  }

  /** The pattern `[0-9a-f]{64}` matches at position `i`. */
  predicate HexRunAt(s: string, i: nat) {
    && i + FullIdLength <= |s|
    && forall k :: i <= k < i + FullIdLength ==> IsLowerHex(s[k])
  }

  /** The position of the leftmost match at or after `from`, as a regular
      expression search that tries each start position in turn finds it. */
  function FirstHexRunFrom(s: string, from: nat): (r: Option<nat>)
    requires from <= |s|
    ensures r.Some? ==> from <= r.value && HexRunAt(s, r.value)
    ensures r.Some? ==> forall j :: from <= j < r.value ==> !HexRunAt(s, j)
    ensures r.None? ==> forall j :: from <= j ==> !HexRunAt(s, j)
    decreases |s| - from
  {
    if from + FullIdLength > |s| then None
    else if HexRunAt(s, from) then Some(from)
    else FirstHexRunFrom(s, from + 1)
  }

  /** `String.prototype.match` with the non-global pattern: the leftmost match. */
  function FirstHexRun(s: string): Option<nat> {
    FirstHexRunFrom(s, 0)
  }

  /** The pure part of the id lookup: the first twelve characters of the
      leftmost run of 64 lower-case hexadecimal digits, if there is one. */
  function ShortIdFromCgroup(cgroup: string): (r: Option<string>)
    ensures r.None? <==> forall j :: !HexRunAt(cgroup, j)
    ensures r.Some? ==> |r.value| == ShortIdLength
    ensures r.Some? ==> forall k :: 0 <= k < |r.value| ==> IsLowerHex(r.value[k])
    ensures r.Some? ==> exists p: nat ::
      && HexRunAt(cgroup, p)
      && r.value == cgroup[p..p + ShortIdLength]
      && forall j :: 0 <= j < p ==> !HexRunAt(cgroup, j)
  {
    match FirstHexRun(cgroup)
    case None => None
    case Some(p) =>
      Some(cgroup[p..p + ShortIdLength])
  }

  /** The whole lookup: the control-group listing when it can be read and
      holds a match, then the host name, then a fixed placeholder. */
  function ContainerId(cgroup: Option<string>, hostname: Option<string>): (r: string)
    ensures cgroup.Some? && ShortIdFromCgroup(cgroup.value).Some? ==>
      && r == ShortIdFromCgroup(cgroup.value).value
      && |r| == ShortIdLength && forall k :: 0 <= k < |r| ==> IsLowerHex(r[k])
    ensures (cgroup.None? || forall j :: !HexRunAt(cgroup.value, j)) ==>
      r == hostname.GetOr(UnknownContainer)
  {
    var fromCgroup := if cgroup.Some? then ShortIdFromCgroup(cgroup.value) else None;
    match fromCgroup
    case Some(id) => id
    case None => hostname.GetOr(UnknownContainer)
  }

  /** The id reported is the same whatever text follows the first full id:
      only the leftmost match counts. */
  lemma {:induction false} LeftmostMatchWins(prefix: string, id: string, suffix: string)
    requires |id| == FullIdLength && forall k :: 0 <= k < |id| ==> IsLowerHex(id[k])
    requires forall j :: 0 <= j && j + FullIdLength <= |prefix| ==> !HexRunAt(prefix, j)
    requires |prefix| == 0 || !IsLowerHex(prefix[|prefix| - 1])
    ensures ShortIdFromCgroup(prefix + id + suffix) == Some(id[..ShortIdLength])
  {
    var s := prefix + id + suffix;
    var p := |prefix|;
    assert HexRunAt(s, p) by {
      assert forall k :: p <= k < p + FullIdLength ==> s[k] == id[k - p];
    }
    forall j | 0 <= j < p
      ensures !HexRunAt(s, j)
    {
      if j + FullIdLength <= p {
        assert !HexRunAt(prefix, j);
        var k :| j <= k < j + FullIdLength && !IsLowerHex(prefix[k]);
        assert s[k] == prefix[k];
      } else {
        assert s[p - 1] == prefix[p - 1];
      }
    }
    assert s[p..p + ShortIdLength] == id[..ShortIdLength];
  }
}
