/** The roles administration page: the selected role, the set of permission ids ticked for it,
    the toggle of one checkbox, the grouping of all permissions by module for display, and which
    controls the page offers. Fetching happens outside: what the server answered is passed in. */
module RolesPage {
  import opened Common

  const SuperAdmin := "Super Admin"

  /** A permission as listed by the server; its name reads `module:action...`. */
  datatype Permission = Permission(id: int, name: string)

  /** A role as listed by the server. */
  datatype RoleRef = RoleRef(id: int, name: string)

  /** The page's state: `selectedRole` and `assignedPermissions`. */
  datatype PageState = PageState(selected: Option<RoleRef>, ticked: set<int>)

  /** `handlePermissionChange`: a new set in which only `id`'s membership is flipped. */
  function Toggle(ticked: set<int>, id: int): (r: set<int>)
    ensures id in r <==> id !in ticked
    ensures forall x | x != id :: x in r <==> x in ticked
  {
    if id in ticked then ticked - {id} else ticked + {id}
  }

  /** Toggling the same id twice restores the original set. */
  lemma ToggleTwice(ticked: set<int>, id: int)
    ensures Toggle(Toggle(ticked, id), id) == ticked
  {
  }

  /** Toggles of different ids commute, so the final set depends only on which ids were clicked
      an odd number of times. */
  lemma TogglesCommute(ticked: set<int>, a: int, b: int)
    ensures Toggle(Toggle(ticked, a), b) == Toggle(Toggle(ticked, b), a)
  {
  }

  /** `name.split(':')[0]`: the text before the first `:`, or the whole name if it has none. */
  function ModuleOf(name: string): (m: string)
    ensures m <= name
    ensures ':' !in m
    ensures |m| < |name| ==> name[|m|] == ':'
  {
    if name == [] || name[0] == ':' then [] else [name[0]] + ModuleOf(name[1..])
  }

  /** The module of `m:rest` is `m` whenever `m` holds no `:`, whatever `rest` holds. */
  lemma {:induction false} ModuleOfQualified(m: string, rest: string)
    requires ':' !in m
    ensures ModuleOf(m + ":" + rest) == m
  {
    if m != [] {
      assert (m + ":" + rest)[1..] == m[1..] + ":" + rest;
      ModuleOfQualified(m[1..], rest);
      assert [m[0]] + m[1..] == m;
    }
  }

  /** The modules that occur among `perms`. */
  function Modules(perms: seq<Permission>): set<string>
  {
    if perms == [] then {} else Modules(perms[..|perms| - 1]) + {ModuleOf(perms[|perms| - 1].name)}
  }

  /** The group shown for module `m`: the permissions of that module, in list order. */
  function Group(perms: seq<Permission>, m: string): seq<Permission>
  {
    if perms == [] then []
    else
      var p := perms[|perms| - 1];
      Group(perms[..|perms| - 1], m) + (if ModuleOf(p.name) == m then [p] else [])
  }

  /** A permission is in group `m` exactly when it is listed and its module is `m`; a module has a
      non-empty group exactly when it occurs. Hence every permission lands in exactly one group. */
  lemma {:induction false} GroupMembership(perms: seq<Permission>, m: string)
    ensures forall p :: p in Group(perms, m) <==> p in perms && ModuleOf(p.name) == m
    ensures Group(perms, m) != [] <==> m in Modules(perms)
  {
    if perms != [] {
      var init := perms[..|perms| - 1];
      GroupMembership(init, m);
      assert perms == init + [perms[|perms| - 1]];
    }
  }

  /** Grouping keeps the input order: the group of a concatenation is the concatenation of groups. */
  lemma {:induction false} GroupKeepsOrder(a: seq<Permission>, b: seq<Permission>, m: string)
    ensures Group(a + b, m) == Group(a, m) + Group(b, m)
  {
    if b != [] {
      var init := b[..|b| - 1];
      GroupKeepsOrder(a, init, m);
      assert (a + b)[..|a + b| - 1] == a + init;
      assert (a + b)[|a + b| - 1] == b[|b| - 1];
    } else {
      assert a + b == a;
    }
  }

  /** The `reduce` that builds `groupedPermissions`: for each permission in turn, create the
      module's list if missing and push the permission onto it. */
  method GroupPermissions(perms: seq<Permission>) returns (groups: map<string, seq<Permission>>)
    ensures groups.Keys == Modules(perms)
    ensures forall m | m in groups :: groups[m] == Group(perms, m)
  {
    groups := map[];
    for i := 0 to |perms|
      invariant groups.Keys == Modules(perms[..i])
      invariant forall m | m in groups :: groups[m] == Group(perms[..i], m)
    {
      var p := perms[i];
      var m := ModuleOf(p.name);
      assert perms[..i + 1][..i] == perms[..i];
      if m !in groups {
        GroupMembership(perms[..i], m);
        groups := groups[m := []];
      }
      groups := groups[m := groups[m] + [p]];
    }
    assert perms[..|perms|] == perms;
  }

  /** The effect run when the selection changes: the ids the server lists for the new role, or
      the empty set when the selection is cleared. */
  function OnSelectionChange(selected: Option<RoleRef>, fetchedIds: seq<int>): (ticked: set<int>)
    ensures selected.None? ==> ticked == {}
    ensures selected.Some? ==> forall x :: x in ticked <==> x in fetchedIds
  {
    if selected.None? then {} else set x | x in fetchedIds
  }

  /** Checkboxes are disabled for Super Admin. */
  predicate CheckboxesDisabled(st: PageState)
    ensures CheckboxesDisabled(st) ==> st.selected.Some?
  {
    st.selected.Some? && st.selected.value.name == SuperAdmin
  }

  /** The save button is offered only for a selected role other than Super Admin. */
  predicate ShowsSaveButton(st: PageState)
    // with a role selected exactly one of the two holds; with none, neither
    ensures st.selected.Some? ==> (ShowsSaveButton(st) <==> !CheckboxesDisabled(st))
    ensures st.selected.None? ==> !ShowsSaveButton(st) && !CheckboxesDisabled(st)
  {
    st.selected.Some? && st.selected.value.name != SuperAdmin
  }

  /** A click on the checkbox of `id`: checkboxes exist only while a role is selected, and a
      disabled one fires no change. */
  function OnCheckboxClick(st: PageState, id: int): (r: PageState)
    ensures st.selected.None? || CheckboxesDisabled(st) ==> r == st
    ensures ShowsSaveButton(st) ==> r == st.(ticked := Toggle(st.ticked, id))
  {
    if st.selected.None? || st.selected.value.name == SuperAdmin then st
    else st.(ticked := Toggle(st.ticked, id))
  }

  /** The request `handleSavePermissions` issues: a PUT of the ticked ids for the selected role. */
  datatype SaveRequest = SaveRequest(roleId: int, permissionIds: set<int>)

  /** `handleSavePermissions`: nothing without a selected role. */
  function OnSave(st: PageState): (r: Option<SaveRequest>)
    ensures r.None? <==> st.selected.None?
    ensures r.Some? ==> r.value == SaveRequest(st.selected.value.id, st.ticked)
  {
    if st.selected.None? then None else Some(SaveRequest(st.selected.value.id, st.ticked))
  }

  /** For Super Admin the page is read-only: no save button, and no click changes the ticked set;
      for any other selected role each click flips exactly the clicked id. */
  lemma SuperAdminIsReadOnly(st: PageState, id: int)
    requires st.selected.Some?
    ensures st.selected.value.name == SuperAdmin ==> !ShowsSaveButton(st) && OnCheckboxClick(st, id) == st
    ensures st.selected.value.name != SuperAdmin ==>
              ShowsSaveButton(st) && (id in OnCheckboxClick(st, id).ticked <==> id !in st.ticked)
  {
  }
}
