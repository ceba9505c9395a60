/**
 * The admin app's route table (apps/admin/src/utils/constants/route.ts): eight
 * fixed paths and the two battle paths built from a battle id.
 */
module Routes {
  import opened Seqs

  const LOGIN: string := "/login"
  const DASHBOARD: string := "/dashboard"
  const BATTLES: string := "/battles"
  const BATTLES_CREATE: string := "/battles/create"
  const USERS: string := "/users"
  const SUBMISSIONS: string := "/submissions"
  const ANALYTICS: string := "/analytics"
  const SETTINGS: string := "/settings"

  /** The fixed paths, in the order the table declares them. */
  const FIXED_ROUTES: seq<string> :=
    [LOGIN, DASHBOARD, BATTLES, BATTLES_CREATE, USERS, SUBMISSIONS, ANALYTICS, SETTINGS]

  /** `BATTLES_DETAIL(id)`: the battle's page, the id interpolated verbatim. */
  function BattlesDetail(id: string): (r: string)
    ensures |r| == |BATTLES| + 1 + |id|
    ensures r[..|BATTLES|] == BATTLES && r[|BATTLES|] == '/' && r[|BATTLES| + 1..] == id
  {
    "/battles/" + id
  }

  /** `BATTLES_EDIT(id)`: the battle's edit page. */
  function BattlesEdit(id: string): (r: string)
    ensures |r| == |BATTLES| + 1 + |id| + 5
    ensures r == BattlesDetail(id) + "/edit"
  {
    "/battles/" + id + "/edit"
  }

  /** Every fixed path is absolute, and no two of them coincide. */
  lemma FixedRoutesWellFormed()
    ensures forall r :: r in FIXED_ROUTES ==> |r| > 0 && r[0] == '/'
    ensures Distinct(FIXED_ROUTES)
  {
    forall i, j | 0 <= i < j < |FIXED_ROUTES| ensures FIXED_ROUTES[i] != FIXED_ROUTES[j] {
      var a, b := FIXED_ROUTES[i], FIXED_ROUTES[j];
      if |a| == |b| {
        // Equal-length pairs: /users and /login differ in their second character.
        assert a[1] != b[1];
      }
    }
  }

  /** The edit page sits directly under the battle's page. */
  lemma EditExtendsDetail(id: string)
    ensures BattlesEdit(id) == BattlesDetail(id) + "/edit"
  {
  }

  /** Every battle page lies strictly below the battle list. */
  lemma DetailBelowList(id: string)
    ensures |BATTLES| < |BattlesDetail(id)|
    ensures BattlesDetail(id)[..|BATTLES|] == BATTLES
  {
  }

  /** Different ids give different battle pages. */
  lemma DetailInjective(a: string, b: string)
    ensures BattlesDetail(a) == BattlesDetail(b) <==> a == b
  {
    if BattlesDetail(a) == BattlesDetail(b) {
      assert a == BattlesDetail(a)[|BATTLES| + 1..];
    }
  }

  /** Different ids give different edit pages. */
  lemma EditInjective(a: string, b: string)
    ensures BattlesEdit(a) == BattlesEdit(b) <==> a == b
  {
    if BattlesEdit(a) == BattlesEdit(b) {
      EditExtendsDetail(a);
      EditExtendsDetail(b);
      assert BattlesDetail(a) == BattlesEdit(a)[..|BattlesEdit(a)| - 5];
      DetailInjective(a, b);
    }
  }

  /**
   * A battle page is never an edit page as long as its id has no `/`: the
   * edit page's id part would have to end in `/edit`.
   */
  lemma DetailNotEdit(a: string, b: string)
    requires '/' !in b
    ensures BattlesDetail(b) != BattlesEdit(a)
  {
    var k := |BATTLES| + 1 + |a|;
    assert BattlesEdit(a)[k] == '/';
    if |a| < |b| {
      assert BattlesDetail(b)[k] == b[|a|];
    }
  }

  /** The id is interpolated without escaping: the id `create` names the creation page. */
  lemma CreateIsADetail()
    ensures BattlesDetail("create") == BATTLES_CREATE
  {
  }
}
