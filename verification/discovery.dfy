/** Resolving the configured player among the zones found by discovery (`find_player`). */
module Discovery {
  import opened Wrappers

  /**
   * One discovered zone. Besides the name used for matching, it carries what the
   * tick reads from the device: its current track info and its volume.
   */
  datatype Zone = Zone(
    playerName: string,
    trackInfo: map<string, string>,
    volume: int)

  /** The only failure of the resolver. */
  datatype DiscoveryError = NoDeviceFound(name: string)

  /** `i` is the position of the first zone, in the order discovery yields them, named exactly `name`. */
  ghost predicate IsFirstMatch(zones: seq<Zone>, name: string, i: int) {
    && 0 <= i < |zones|
    && zones[i].playerName == name
    && forall j :: 0 <= j < i ==> zones[j].playerName != name
  }

  /** The first match, if any, is unique. */
  lemma FirstMatchUnique(zones: seq<Zone>, name: string, i: int, k: int)
    requires IsFirstMatch(zones, name, i) && IsFirstMatch(zones, name, k)
    ensures i == k
  {
  }

  /**
   * The zones whose `player_name` equals `name`, in the order discovery yields them: the list
   * comprehension inside `find_player`.
   */
  function Matching(zones: seq<Zone>, name: string): (r: seq<Zone>)
    ensures |r| <= |zones|
    ensures forall z :: z in r ==> z in zones && z.playerName == name
    ensures forall i :: 0 <= i < |zones| && zones[i].playerName == name ==> zones[i] in r
    ensures |r| > 0 ==> exists i :: IsFirstMatch(zones, name, i) && r[0] == zones[i]
  {
    if |zones| == 0 then []
    else
      var rest := Matching(zones[1..], name);
      if zones[0].playerName == name then
        assert IsFirstMatch(zones, name, 0);
        [zones[0]] + rest
      else
        assert forall i :: 1 <= i < |zones| ==> zones[i] == zones[1..][i - 1];
        assert |rest| > 0 ==> exists i :: IsFirstMatch(zones, name, i) && rest[0] == zones[i] by {
          if |rest| > 0 {
            var i :| IsFirstMatch(zones[1..], name, i) && rest[0] == zones[1..][i];
            assert IsFirstMatch(zones, name, i + 1);
          }
        }
        rest
  }

  /**
   * `find_player`: the first zone named exactly `name` (case-sensitive), or
   * `NoDeviceFound` when none is, including when discovery found no zone at all.
   */
  function FindPlayer(zones: seq<Zone>, name: string): (r: Result<Zone, DiscoveryError>)
    ensures r.Failure? <==> forall i :: 0 <= i < |zones| ==> zones[i].playerName != name
    ensures r.Failure? ==> r.error == NoDeviceFound(name)
    ensures r.Success? ==> exists i :: IsFirstMatch(zones, name, i) && r.value == zones[i]
  {
    var found := Matching(zones, name);
    if |found| > 0 then Success(found[0]) else Failure(NoDeviceFound(name))
  }

  /**
   * Zones after a match never change the answer: resolving over
   * `a + b` is resolving over `a`, falling back to `b` only when `a` has no match.
   */
  lemma FindPlayerAppend(a: seq<Zone>, b: seq<Zone>, name: string)
    ensures FindPlayer(a, name).Success? ==> FindPlayer(a + b, name) == FindPlayer(a, name)
    ensures FindPlayer(a, name).Failure? ==> FindPlayer(a + b, name) == FindPlayer(b, name)
  {
    var ab := a + b;
    assert forall i :: 0 <= i < |a| ==> ab[i] == a[i];
    assert forall i :: 0 <= i < |b| ==> ab[|a| + i] == b[i];
    var r := FindPlayer(ab, name);
    if FindPlayer(a, name).Success? {
      var i :| IsFirstMatch(a, name, i) && FindPlayer(a, name).value == a[i];
      assert IsFirstMatch(ab, name, i);
      var k :| IsFirstMatch(ab, name, k) && r.value == ab[k];
      FirstMatchUnique(ab, name, i, k);
    } else if FindPlayer(b, name).Success? {
      var i :| IsFirstMatch(b, name, i) && FindPlayer(b, name).value == b[i];
      assert IsFirstMatch(ab, name, |a| + i);
      var k :| IsFirstMatch(ab, name, k) && r.value == ab[k];
      FirstMatchUnique(ab, name, |a| + i, k);
    } else {
      forall i | 0 <= i < |ab| ensures ab[i].playerName != name {
        if i >= |a| {
          assert ab[i] == b[i - |a|];
        }
      }
    }
  }

  /** With duplicate names the earliest zone wins. */
  lemma FirstOfDuplicatesWins(x: Zone, y: Zone)
    requires x.playerName == y.playerName
    ensures FindPlayer([x, y], x.playerName) == Success(x)
  {
  }
}
