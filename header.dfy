/** The page title the header shows for the current path. */
module Header {
  import opened Text

  const DashboardTitle := "Dashboard"
  const ClientsTitle := "Gesti\U{00F3}n de Clientes"
  const AppointmentsTitle := "Calendario de Citas"
  const ServicesTitle := "Cat\U{00E1}logo de Servicios"
  const EmployeesTitle := "Equipo de Trabajo"
  const FinancesTitle := "Reporte Financiero"
  const DefaultTitle := "Pepe Backoffice"

  /** The seven titles, in the order the header checks them. */
  const Titles: seq<string> :=
    [DashboardTitle, ClientsTitle, AppointmentsTitle, ServicesTitle, EmployeesTitle, FinancesTitle, DefaultTitle]

  /** `getPageTitle`: the root path exactly, then the section prefixes in
      order, the first that matches winning; anything else gets the
      application's name. */
  function PageTitle(path: string): (r: string)
    ensures r in Titles
  {
    if path == "/" then DashboardTitle
    else if StartsWith(path, "/clients") then ClientsTitle
    else if StartsWith(path, "/appointments") then AppointmentsTitle
    else if StartsWith(path, "/services") then ServicesTitle
    else if StartsWith(path, "/employees") then EmployeesTitle
    else if StartsWith(path, "/finances") then FinancesTitle
    else DefaultTitle
  }

  /** Only the root path itself is the dashboard. */
  lemma RootOnly(path: string)
    ensures PageTitle(path) == DashboardTitle <==> path == "/"
  {
    if path != "/" {
      assert DashboardTitle[0] == 'D';
      assert ClientsTitle[0] == 'G' && AppointmentsTitle[0] == 'C' && ServicesTitle[0] == 'C';
      assert EmployeesTitle[0] == 'E' && FinancesTitle[0] == 'R' && DefaultTitle[0] == 'P';
    }
  }

  /** The section prefixes, in the order the header checks them, and their titles. */
  const Sections: seq<string> := ["/clients", "/appointments", "/services", "/employees", "/finances"]
  const SectionTitles: seq<string> := [ClientsTitle, AppointmentsTitle, ServicesTitle, EmployeesTitle, FinancesTitle]

  /** Every page below a section shows that section's title: no earlier
      prefix matches it, since the sections differ in their first letter. */
  lemma SectionPage(k: nat, rest: string)
    requires k < |Sections|
    ensures PageTitle(Sections[k] + rest) == SectionTitles[k]
  {
    var s := Sections[k] + rest;
    StartsWithConcat(Sections[k], rest);
    assert s[1] == Sections[k][1];
    assert s != "/" by { assert |s| > 1; }
    forall j | 0 <= j < k
      ensures !StartsWith(s, Sections[j])
    {
      assert Sections[j][1] != Sections[k][1];
      DiffersAt(s, Sections[j], 1);
    }
    assert StartsWith(s, Sections[k]);
    if k == 0 {
      assert StartsWith(s, "/clients");
    } else if k == 1 {
      assert !StartsWith(s, "/clients") && StartsWith(s, "/appointments");
    } else if k == 2 {
      assert !StartsWith(s, "/clients") && !StartsWith(s, "/appointments") && StartsWith(s, "/services");
    } else if k == 3 {
      assert !StartsWith(s, "/clients") && !StartsWith(s, "/appointments") && !StartsWith(s, "/services");
      assert StartsWith(s, "/employees");
    } else {
      assert !StartsWith(s, "/clients") && !StartsWith(s, "/appointments") && !StartsWith(s, "/services");
      assert !StartsWith(s, "/employees") && StartsWith(s, "/finances");
    }
  }

  /** A path that is neither the root nor inside a section falls through;
      `/x` is one, since the root test is an equality and not a prefix. */
  lemma OtherPaths()
    ensures PageTitle("/x") == DefaultTitle
    ensures PageTitle("") == DefaultTitle
    ensures PageTitle("/clientes") == DefaultTitle
  {
    assert "/x" != "/" by { assert |"/x"| != |"/"|; }
    assert "/clientes"[..8] == "/cliente" && "/clientes"[1] == 'c';
  }
}
