/**
 * The role panel of bot/cogs/role_panel.py: the `/role_panel` command keeps
 * the roles it was given (one to five), the view holds one button per role,
 * and pressing a button toggles that role on the member who pressed it.
 */
module RolePanel {

  import opened Wrappers
  import opened Discord

  const Prompt := "ロールを選択してください"
  const Confirmation := "✅ ロールを更新しました"

  /** The present values of `xs`, in order (`[x for x in xs if x]`). */
  function Present(xs: seq<Option<Role>>): (r: seq<Role>)
    ensures |r| <= |xs|
    ensures forall x :: x in r <==> Some(x) in xs
  {
    if xs == [] then []
    else
      var rest := Present(xs[1..]);
      assert forall o :: o in xs <==> o == xs[0] || o in xs[1..];
      if xs[0].Some? then [xs[0].value] + rest else rest
  }

  /** Keeping the present values commutes with concatenation, so the relative
      order of the arguments is kept. */
  lemma {:induction false} PresentAppend(a: seq<Option<Role>>, b: seq<Option<Role>>)
    ensures Present(a + b) == Present(a) + Present(b)
  {
    if a == [] {
      assert a + b == b;
    } else {
      assert (a + b)[0] == a[0];
      assert (a + b)[1..] == a[1..] + b;
      PresentAppend(a[1..], b);
    }
  }

  /** `roles = [r for r in [r1, r2, r3, r4, r5] if r]`; `r1` is required. */
  function PanelRoles(r1: Role, r2: Option<Role>, r3: Option<Role>, r4: Option<Role>, r5: Option<Role>): (roles: seq<Role>)
    ensures 1 <= |roles| <= 5
    ensures roles[0] == r1
    ensures forall r :: r in roles <==> r == r1 || Some(r) in [r2, r3, r4, r5]
  {
    var all := [Some(r1), r2, r3, r4, r5];
    assert all == [Some(r1)] + all[1..];
    PresentAppend([Some(r1)], all[1..]);
    Present(all)
  }

  /** The roles come in argument order, with the absent ones closed up. */
  lemma PanelRolesInOrder(r1: Role, r2: Option<Role>, r3: Option<Role>, r4: Option<Role>, r5: Option<Role>)
    ensures PanelRoles(r1, r2, r3, r4, r5)
         == [r1] + Present([r2]) + Present([r3]) + Present([r4]) + Present([r5])
  {
    var all := [Some(r1), r2, r3, r4, r5];
    assert all == [Some(r1)] + [r2] + [r3] + [r4] + [r5];
    PresentAppend([Some(r1)] + [r2] + [r3] + [r4], [r5]);
    PresentAppend([Some(r1)] + [r2] + [r3], [r4]);
    PresentAppend([Some(r1)] + [r2], [r3]);
    PresentAppend([Some(r1)], [r2]);
  }

  /** A member's roles after pressing the button bound to `id`. */
  function Toggle(held: set<Snowflake>, id: Snowflake): (r: set<Snowflake>)
    ensures id in r <==> id !in held
    ensures forall x :: x != id ==> (x in r <==> x in held)
  {
    if id in held then held - {id} else held + {id}
  }

  /** Pressing the same button twice gives back the roles the member started with. */
  lemma ToggleTwice(held: set<Snowflake>, id: Snowflake)
    ensures Toggle(Toggle(held, id), id) == held
  {
  }

  /** A button labelled with its role's name and bound to that role. */
  datatype Button = Button(caption: string, role: Role)

  class RolePanelView {
    var items: seq<Button>

    /** One button per role, in the roles' order. */
    constructor (roles: seq<Role>)
      ensures |items| == |roles|
      ensures forall i :: 0 <= i < |roles| ==> items[i] == Button(roles[i].name, roles[i])
    {
      items := [];
      new;
      for i := 0 to |roles|
        invariant |items| == i
        invariant forall k :: 0 <= k < i ==> items[k] == Button(roles[k].name, roles[k])
      {
        AddItem(Button(roles[i].name, roles[i]));
      }
    }

    /** `View.add_item` */
    method AddItem(b: Button)
      modifies this
      ensures items == old(items) + [b]
    {
      items := items + [b];
    }

    /** The callback of button `i`, pressed by `user`. */
    method Press(i: nat, user: Member) returns (reply: string)
      requires i < |items|
      modifies user
      ensures user.roles == Toggle(old(user.roles), items[i].role.id)
      ensures reply == Confirmation
    {
      var r := items[i].role;
      if r.id in user.roles {
        user.RemoveRole(r.id);
      } else {
        user.AddRole(r.id);
      }
      reply := Confirmation;
    }
  }

  /** `/role_panel r1 [r2 … r5]`: the prompt and a view with a button per given role. */
  method OpenPanel(r1: Role, r2: Option<Role>, r3: Option<Role>, r4: Option<Role>, r5: Option<Role>)
    returns (prompt: string, view: RolePanelView)
    ensures prompt == Prompt && fresh(view)
    ensures var roles := PanelRoles(r1, r2, r3, r4, r5);
            |view.items| == |roles|
            && forall i :: 0 <= i < |roles| ==> view.items[i] == Button(roles[i].name, roles[i])
  {
    var roles := PanelRoles(r1, r2, r3, r4, r5);
    view := new RolePanelView(roles);
    prompt := Prompt;
  }
}
