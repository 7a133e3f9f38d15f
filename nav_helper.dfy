/**
 * The navigation helper loaded on the settings and pages screens
 * (nav-helper.js): which page a path names, the breadcrumb label shown for
 * it, and the breadcrumb and quick-navigation blocks inserted at most once.
 *
 * The document is abstracted to the few facts the guards query.
 */
module NavHelper {

  import opened Common
  import opened Strings

  /** `path.split('/').pop()`: the last '/'-separated segment. */
  function PageKey(path: string): (key: string)
    ensures '/' !in key
    ensures |key| <= |path| && path[|path| - |key|..] == key
    ensures '/' !in path ==> key == path
  {
    var parts := Split(path, "/");
    SplitPiecesFree(path, '/');
    LastPieceIsSuffix(path, "/");
    ContainsCharIff(path, '/');
    Last(parts)
  }

  /** The labels of the settings pages. */
  function SettingsLabels(): map<string, string>
  {
    map[
      "org" := "Organizasyon",
      "rbac" := "RBAC",
      "identity" := "Kimlik & Güvenlik",
      "profiles" := "Profiller",
      "network" := "Ağ & Protokoller",
      "automation-policies" := "Otomasyon Politikaları",
      "ems-policies" := "EMS Politikaları",
      "tariffs" := "Tarifeler",
      "reports" := "Raporlama",
      "storage" := "Veri Saklama",
      "integrations" := "Entegrasyonlar",
      "ota" := "OTA & Bakım",
      "alert-templates" := "Alarm Şablonları",
      "calibration" := "Kalibrasyon",
      "compliance" := "Uyumluluk",
      "ui-prefs" := "UI Tercihleri",
      "health" := "Sağlık"
    ]
  }

  /** The labels of the other pages. */
  function PagesLabels(): map<string, string>
  {
    map[
      "alerts-center" := "Alarm Merkezi",
      "transformer-grid" := "Trafo & Şebeke",
      "health-sla" := "Sağlık & SLA"
    ]
  }

  /** `labels[key] || key`: the fixed label of a known key, the key itself otherwise. */
  function LabelOr(labels: map<string, string>, key: string): (shown: string)
    ensures key in labels && labels[key] != "" ==> shown == labels[key]
    ensures key !in labels ==> shown == key
  {
    if key in labels && labels[key] != "" then labels[key] else key
  }

  /** Every known label is non-empty, so the `||` fallback is taken exactly for unknown keys. */
  lemma LabelsNonEmpty()
    ensures forall k :: k in SettingsLabels() ==> SettingsLabels()[k] != ""
    ensures forall k :: k in PagesLabels() ==> PagesLabels()[k] != ""
  {
  }

  datatype Crumb = Crumb(title: string, pageType: string)

  /** The breadcrumb the page-load handler asks for; settings paths are tested first. */
  function CrumbFor(path: string): (r: Option<Crumb>)
    ensures Contains(path, "/ui/settings/") ==> r == Some(Crumb(LabelOr(SettingsLabels(), PageKey(path)), "settings"))
    ensures !Contains(path, "/ui/settings/") && Contains(path, "/ui/pages/") ==>
      r == Some(Crumb(LabelOr(PagesLabels(), PageKey(path)), "pages"))
    ensures r.None? <==> !Contains(path, "/ui/settings/") && !Contains(path, "/ui/pages/")
  {
    if Contains(path, "/ui/settings/") then Some(Crumb(LabelOr(SettingsLabels(), PageKey(path)), "settings"))
    else if Contains(path, "/ui/pages/") then Some(Crumb(LabelOr(PagesLabels(), PageKey(path)), "pages"))
    else None
  }

  /** A settings page that is also under '/ui/pages/' still gets the settings breadcrumb. */
  lemma SettingsWins(path: string)
    requires Contains(path, "/ui/settings/")
    ensures CrumbFor(path).Some? && CrumbFor(path).value.pageType == "settings"
  {
  }

  /** A block inserted in front of the page heading. */
  datatype Block = Breadcrumb(crumb: Crumb) | QuickNav

  /**
   * What the guards see of the page: whether the content container and its
   * heading exist, whether an element with the breadcrumb's classes
   * ('.flex.items-center.gap-3') or the quick navigation's grid classes
   * ('.grid.grid-cols-2') is present, and the blocks inserted so far.
   */
  datatype Dom = Dom(hasContainer: bool, hasHeading: bool, hasFlexRow: bool, hasGrid: bool, inserted: seq<Block>)

  /** `addBreadcrumb`: inserted only under a container with a heading and no breadcrumb-like row. */
  function AddBreadcrumb(dom: Dom, crumb: Crumb): (r: Dom)
    ensures dom.hasContainer && dom.hasHeading && !dom.hasFlexRow ==>
      r == dom.(hasFlexRow := true, inserted := dom.inserted + [Breadcrumb(crumb)])
    ensures !(dom.hasContainer && dom.hasHeading && !dom.hasFlexRow) ==> r == dom
  {
    if dom.hasContainer && dom.hasHeading && !dom.hasFlexRow then
      dom.(hasFlexRow := true, inserted := dom.inserted + [Breadcrumb(crumb)])
    else dom
  }

  /** `addSettingsNav`: inserted only under a container with a heading and no grid. */
  function AddSettingsNav(dom: Dom): (r: Dom)
    ensures dom.hasContainer && dom.hasHeading && !dom.hasGrid ==>
      r == dom.(hasGrid := true, inserted := dom.inserted + [QuickNav])
    ensures !(dom.hasContainer && dom.hasHeading && !dom.hasGrid) ==> r == dom
  {
    if dom.hasContainer && dom.hasHeading && !dom.hasGrid then
      dom.(hasGrid := true, inserted := dom.inserted + [QuickNav])
    else dom
  }

  /** The page-load handler: a breadcrumb on settings and pages paths, and the quick navigation on settings paths. */
  function OnLoad(path: string, dom: Dom): (r: Dom)
    ensures |dom.inserted| <= |r.inserted| <= |dom.inserted| + 2
    ensures r.inserted[..|dom.inserted|] == dom.inserted
    ensures CrumbFor(path).None? ==> r == dom
    ensures CrumbFor(path).Some? && CrumbFor(path).value.pageType != "settings" ==> r == AddBreadcrumb(dom, CrumbFor(path).value)
    ensures CrumbFor(path).Some? && CrumbFor(path).value.pageType == "settings" ==>
      r == AddSettingsNav(AddBreadcrumb(dom, CrumbFor(path).value))
  {
    match CrumbFor(path)
    case None => dom
    case Some(c) =>
      var withCrumb := AddBreadcrumb(dom, c);
      if c.pageType == "settings" then AddSettingsNav(withCrumb) else withCrumb
  }

  /** A second breadcrumb request adds nothing, whatever its label. */
  lemma BreadcrumbOnce(dom: Dom, first: Crumb, second: Crumb)
    ensures AddBreadcrumb(AddBreadcrumb(dom, first), second) == AddBreadcrumb(dom, first)
  {
  }

  /** Running the page-load handler again leaves the page as the first run left it. */
  lemma OnLoadIdempotent(path: string, dom: Dom)
    ensures OnLoad(path, OnLoad(path, dom)) == OnLoad(path, dom)
  {
  }

  /** On a settings page with a heading and neither block yet, exactly a breadcrumb and then the quick navigation are inserted. */
  lemma SettingsPageGetsBoth(path: string, dom: Dom)
    requires Contains(path, "/ui/settings/")
    requires dom.hasContainer && dom.hasHeading && !dom.hasFlexRow && !dom.hasGrid
    ensures OnLoad(path, dom).inserted ==
      dom.inserted + [Breadcrumb(Crumb(LabelOr(SettingsLabels(), PageKey(path)), "settings")), QuickNav]
  {
  }

  /** On a '/ui/pages/' page outside the settings with a heading and no breadcrumb yet, exactly the breadcrumb is inserted. */
  lemma PagesPageGetsBreadcrumb(path: string, dom: Dom)
    requires !Contains(path, "/ui/settings/") && Contains(path, "/ui/pages/")
    requires dom.hasContainer && dom.hasHeading && !dom.hasFlexRow
    ensures OnLoad(path, dom) == dom.(hasFlexRow := true,
      inserted := dom.inserted + [Breadcrumb(Crumb(LabelOr(PagesLabels(), PageKey(path)), "pages"))])
  {
  }

  /** Any other path leaves the page as it was. */
  lemma OtherPageUnchanged(path: string, dom: Dom)
    requires !Contains(path, "/ui/settings/") && !Contains(path, "/ui/pages/")
    ensures OnLoad(path, dom) == dom
  {
  }
}
