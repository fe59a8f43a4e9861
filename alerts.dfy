/** The notification list held in App's `msgAlerts` state, and the pure list
    operation App uses to compute each new version of it when an alert is
    deleted. */
module Alerts {

  /** The identifier App gives each alert. App draws it from a counter that
      only grows (see AppController.App.MsgAlert), so a new id differs from
      every id handed out before. */
  type AlertId = nat

  /** One entry of `msgAlerts`: `{ heading, message, variant, id }`. The
      variant is the Bootstrap colour name and is passed through unchecked. */
  datatype Alert = Alert(heading: string, message: string, variant: string, id: AlertId)

  /** Some entry of `alerts` carries `id`. */
  predicate HasId(alerts: seq<Alert>, id: AlertId) {
    exists a :: a in alerts && a.id == id
  }

  /** No two entries share an id. */
  predicate DistinctIds(alerts: seq<Alert>) {
    forall i, j :: 0 <= i < j < |alerts| ==> alerts[i].id != alerts[j].id
  }

  /** Every id in the list is below `bound`, the next id the counter will give. */
  predicate IdsBelow(alerts: seq<Alert>, bound: AlertId) {
    forall a :: a in alerts ==> a.id < bound
  }

  /** `alerts.filter(msg => msg.id !== id)`: the entries whose id differs. */
  function FilterOutId(alerts: seq<Alert>, id: AlertId): (r: seq<Alert>)
    ensures |r| <= |alerts|
    ensures forall a :: a in r <==> a in alerts && a.id != id
  {
    if alerts == [] then []
    else if alerts[0].id != id then [alerts[0]] + FilterOutId(alerts[1..], id)
    else FilterOutId(alerts[1..], id)
  }

  /** Filtering works piece by piece: what survives from the front of the list
      comes before what survives from the back, so relative order is kept. */
  lemma {:induction false} FilterOutIdConcat(a: seq<Alert>, b: seq<Alert>, id: AlertId)
    ensures FilterOutId(a + b, id) == FilterOutId(a, id) + FilterOutId(b, id)
  {
    if a == [] {
      assert a + b == b;
    } else {
      assert (a + b)[0] == a[0];
      assert (a + b)[1..] == a[1..] + b;
      FilterOutIdConcat(a[1..], b, id);
    }
  }

  /** Any two kept entries appear in the result in their original order. */
  lemma FilterOutIdKeepsOrder(alerts: seq<Alert>, id: AlertId, i: nat, j: nat)
    requires i < j < |alerts|
    requires alerts[i].id != id && alerts[j].id != id
    ensures exists p, q :: 0 <= p < q < |FilterOutId(alerts, id)|
                           && FilterOutId(alerts, id)[p] == alerts[i]
                           && FilterOutId(alerts, id)[q] == alerts[j]
  {
    var front, back := alerts[..j], alerts[j..];
    assert alerts == front + back;
    FilterOutIdConcat(front, back, id);
    var f := FilterOutId(front, id);
    assert alerts[i] == front[i];
    assert alerts[i] in f;
    var p :| 0 <= p < |f| && f[p] == alerts[i];
    assert back[0] == alerts[j];
    assert FilterOutId(back, id) == [alerts[j]] + FilterOutId(back[1..], id);
    var r := FilterOutId(alerts, id);
    assert r == f + FilterOutId(back, id);
    assert r[p] == alerts[i] && r[|f|] == alerts[j];
  }

  /** Deleting an id that no entry carries leaves the list as it was. */
  lemma {:induction false} FilterOutIdAbsent(alerts: seq<Alert>, id: AlertId)
    requires !HasId(alerts, id)
    ensures FilterOutId(alerts, id) == alerts
  {
    if alerts != [] {
      assert alerts[0] in alerts;
      assert !HasId(alerts[1..], id) by {
        forall a | a in alerts[1..] ensures a.id != id { assert a in alerts; }
      }
      FilterOutIdAbsent(alerts[1..], id);
    }
  }

  /** Deleting the same id twice has the effect of deleting it once. */
  lemma FilterOutIdIdempotent(alerts: seq<Alert>, id: AlertId)
    ensures FilterOutId(FilterOutId(alerts, id), id) == FilterOutId(alerts, id)
  {
    FilterOutIdAbsent(FilterOutId(alerts, id), id);
  }

  /** Deleting keeps ids pairwise distinct. */
  lemma {:induction false} FilterOutIdKeepsDistinct(alerts: seq<Alert>, id: AlertId)
    requires DistinctIds(alerts)
    ensures DistinctIds(FilterOutId(alerts, id))
  {
    if alerts != [] {
      var tail := alerts[1..];
      assert DistinctIds(tail) by {
        forall i, j | 0 <= i < j < |tail| ensures tail[i].id != tail[j].id {
          assert tail[i] == alerts[i + 1] && tail[j] == alerts[j + 1];
        }
      }
      FilterOutIdKeepsDistinct(tail, id);
      if alerts[0].id != id {
        var rest := FilterOutId(tail, id);
        forall a | a in rest ensures a.id != alerts[0].id {
          assert a in tail;
          var k :| 0 <= k < |tail| && tail[k] == a;
          assert alerts[k + 1] == a;
        }
        var r := [alerts[0]] + rest;
        forall i, j | 0 <= i < j < |r| ensures r[i].id != r[j].id {
          if i == 0 {
            assert r[j] == rest[j - 1];
            assert r[j] in rest;
          } else {
            assert r[i] == rest[i - 1] && r[j] == rest[j - 1];
          }
        }
      }
    }
  }

  /** With distinct ids, deleting an id that is present removes exactly one entry. */
  lemma {:induction false} FilterOutIdRemovesOne(alerts: seq<Alert>, id: AlertId)
    requires DistinctIds(alerts)
    requires HasId(alerts, id)
    ensures |FilterOutId(alerts, id)| == |alerts| - 1
  {
    var tail := alerts[1..];
    if alerts[0].id == id {
      assert !HasId(tail, id) by {
        forall a | a in tail ensures a.id != id {
          var k :| 0 <= k < |tail| && tail[k] == a;
          assert alerts[k + 1] == a;
        }
      }
      FilterOutIdAbsent(tail, id);
    } else {
      assert DistinctIds(tail) by {
        forall i, j | 0 <= i < j < |tail| ensures tail[i].id != tail[j].id {
          assert tail[i] == alerts[i + 1] && tail[j] == alerts[j + 1];
        }
      }
      assert HasId(tail, id) by {
        var a :| a in alerts && a.id == id;
        var k :| 0 <= k < |alerts| && alerts[k] == a;
        assert k != 0;
        assert tail[k - 1] == a;
      }
      FilterOutIdRemovesOne(tail, id);
    }
  }

  /** Appending an entry whose id is new keeps ids pairwise distinct. */
  lemma AppendFreshKeepsDistinct(alerts: seq<Alert>, a: Alert)
    requires DistinctIds(alerts)
    requires !HasId(alerts, a.id)
    ensures DistinctIds(alerts + [a])
  {
    var r := alerts + [a];
    forall i, j | 0 <= i < j < |r| ensures r[i].id != r[j].id {
      assert r[i] == alerts[i];
      if j == |alerts| {
        assert alerts[i] in alerts;
      } else {
        assert r[j] == alerts[j];
      }
    }
  }

  /** Deleting the id of an alert just appended with a fresh id gives back the
      list as it was before the append. */
  lemma AppendThenDelete(alerts: seq<Alert>, a: Alert)
    requires !HasId(alerts, a.id)
    ensures FilterOutId(alerts + [a], a.id) == alerts
  {
    FilterOutIdConcat(alerts, [a], a.id);
    FilterOutIdAbsent(alerts, a.id);
  }
}
