/**
 * The export menu of the dashboard page: `toggleExportMenu` opens or closes the
 * menu only when a report is loaded and no load or export is under way, and
 * clears the last export error when it does.
 */
module ExportMenu {
  import opened Js
  import opened DashboardTypes

  datatype ExportFormat = Xlsx | Csv | Pdf

  /** The part of the page's state that the menu toggle reads or writes. */
  datatype MenuState = MenuState(
    hasData: bool,
    loading: bool,
    exportingFormat: Option<ExportFormat>,
    exportError: Option<string>,
    exportMenuOpen: bool)

  /** The guard of `toggleExportMenu`: a report is loaded, nothing loads and nothing is exported. */
  predicate CanToggle(s: MenuState) {
    s.hasData && !s.loading && s.exportingFormat.None?
  }

  /** The state after `toggleExportMenu`. */
  function Toggle(s: MenuState): (t: MenuState)
    ensures t.hasData == s.hasData && t.loading == s.loading && t.exportingFormat == s.exportingFormat
    ensures t.exportMenuOpen != s.exportMenuOpen <==> CanToggle(s)
    ensures t.exportError == if CanToggle(s) then None else s.exportError
  {
    if !CanToggle(s) then s else s.(exportError := None, exportMenuOpen := !s.exportMenuOpen)
  }

  /** Toggling twice closes what it opened (or opens what it closed) and leaves no error. */
  lemma ToggleTwice(s: MenuState)
    requires CanToggle(s)
    ensures Toggle(Toggle(s)) == s.(exportError := None)
  {
    assert CanToggle(Toggle(s));
  }

  /** When the guard fails, toggling is a no-op, however often it is repeated. */
  lemma ToggleBlocked(s: MenuState)
    requires !CanToggle(s)
    ensures Toggle(s) == s && Toggle(Toggle(s)) == s
  {
  }

  /** The toggle never opens the menu while there is no report, a load, or an export. */
  lemma OpensOnlyWhenReady(s: MenuState)
    requires !s.exportMenuOpen && Toggle(s).exportMenuOpen
    ensures s.hasData && !s.loading && s.exportingFormat.None?
  {
  }

  /** The page component, with the state hooks that `toggleExportMenu` concerns. */
  class DashboardPage {
    var data: Option<DashboardData>
    var loading: bool
    var exportingFormat: Option<ExportFormat>
    var exportError: Option<string>
    var exportMenuOpen: bool

    /** The initial values of the `useState` hooks. */
    constructor()
      ensures data.None? && loading && exportingFormat.None? && exportError.None? && !exportMenuOpen
    {
      data := None;
      loading := true;
      exportingFormat := None;
      exportError := None;
      exportMenuOpen := false;
    }

    function Menu(): MenuState
      reads this
    {
      MenuState(data.Some?, loading, exportingFormat, exportError, exportMenuOpen)
    }

    /** toggleExportMenu. */
    method ToggleExportMenu()
      modifies this
      ensures Menu() == Toggle(old(Menu()))
      ensures data == old(data)
    {
      if data.None? || loading || exportingFormat.Some? {
        return;
      }
      exportError := None;
      exportMenuOpen := !exportMenuOpen;
    }
  }
}
