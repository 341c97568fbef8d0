/** The sidebar of the dashboard layout (`DashboardLayout`): the entries a
    user sees depend on their role. */
module DashboardNav {
  import opened Wrappers
  import opened Seqs
  import RouteGuard

  datatype SidebarItem = SidebarItem(path: string, caption: string, roles: seq<string>)

  const Admin: string := "admin"
  const Attendant: string := "atendente"

  /** The seven entries, in declaration order. */
  const SidebarItems: seq<SidebarItem> := [
    SidebarItem("/dashboard", "Dashboard", [Admin, Attendant]),
    SidebarItem("/clientes", "Clientes e Pets", [Admin, Attendant]),
    SidebarItem("/agendamentos", "Agendamentos", [Admin, Attendant]),
    SidebarItem("/produtos", "Produtos e Estoque", [Admin, Attendant]),
    SidebarItem("/vendas", "Vendas", [Admin, Attendant]),
    SidebarItem("/relatorios", "Relatórios", [Admin]),
    SidebarItem("/assinatura", "Plano", [Admin])
  ]

  function RoleHasAccess(role: string): SidebarItem -> bool
  {
    (item: SidebarItem) => role in item.roles
  }

  /** `filteredItems`: nothing without a user; otherwise the entries whose
      roles include the user's role, in order. */
  function FilteredItems(userRole: Option<string>): (r: seq<SidebarItem>)
    ensures userRole.None? ==> r == []
    ensures forall i :: 0 <= i < |r| ==> r[i] in SidebarItems && userRole.Some? && userRole.value in r[i].roles
  {
    match userRole
    case None => []
    case Some(role) => Filter(SidebarItems, RoleHasAccess(role))
  }

  /** A signed-in user sees an entry if and only if the entry lists their role. */
  lemma {:induction false} FilteredItemsSpec(role: string, item: SidebarItem)
    ensures item in FilteredItems(Some(role)) <==> item in SidebarItems && role in item.roles
  {
    FilterMember(SidebarItems, RoleHasAccess(role), item);
  }

  function Paths(items: seq<SidebarItem>): seq<string>
  {
    Map(items, (item: SidebarItem) => item.path)
  }

  /** An administrator sees every entry, in order. */
  lemma {:induction false} AdminSeesAll()
    ensures FilteredItems(Some(Admin)) == SidebarItems
  {
    assert forall i :: 0 <= i < |SidebarItems| ==> RoleHasAccess(Admin)(SidebarItems[i]);
  }

  /** An attendant sees the first five entries, without the reports and
      plan pages. */
  lemma {:induction false} AttendantSeesFirstFive()
    ensures FilteredItems(Some(Attendant)) == SidebarItems[..5]
  {
    var p := RoleHasAccess(Attendant);
    AttendantFront();
    AttendantBack();
    assert SidebarItems == SidebarItems[..5] + SidebarItems[5..];
    FilterAppend(SidebarItems[..5], SidebarItems[5..], p);
  }

  lemma {:induction false} AttendantFront()
    ensures Filter(SidebarItems[..5], RoleHasAccess(Attendant)) == SidebarItems[..5]
  {
    var front := SidebarItems[..5];
    assert forall i :: 0 <= i < |front| ==> RoleHasAccess(Attendant)(front[i]);
  }

  lemma {:induction false} AttendantBack()
    ensures Filter(SidebarItems[5..], RoleHasAccess(Attendant)) == []
  {
    var back := SidebarItems[5..];
    assert back == [SidebarItems[5], SidebarItems[6]];
    FilterNone(back, RoleHasAccess(Attendant));
  }

  /** Any other role sees nothing. */
  lemma {:induction false} OtherRolesSeeNothing(role: string)
    requires role != Admin && role != Attendant
    ensures FilteredItems(Some(role)) == []
  {
    FilterNone(SidebarItems, RoleHasAccess(role));
  }

  /** The entries hidden from an attendant are exactly the routes the
      route guard sends an attendant away from. */
  lemma {:induction false} HiddenMatchesGuard()
    ensures Paths(SidebarItems[5..]) == RouteGuard.AdminOnlyRoutes
    ensures forall i :: 0 <= i < |SidebarItems| ==>
              (Attendant !in SidebarItems[i].roles <==> RouteGuard.AdminOnly(SidebarItems[i].path))
  {
    assert SidebarItems[5..] == [SidebarItems[5], SidebarItems[6]];
  }
}
