# EMS dashboard rules, modelled in Dafny

The EMS project ships a browser dashboard for solar, battery and breaker
sites. It also ships a Python configuration loader and a CSV-to-point-map
import script. Most of the dashboard's code builds HTML and calls mocked
back-ends. Beneath that sit many small deterministic rules, and those rules
are what this project models and proves:

- the four "add device" and "new site" wizards, as step machines with their
  gating;
- profile and driver-catalogue editing: filtering, validation, upsert,
  delete, copy, snapshot and reset, tag parsing, point-map checks and
  preview;
- the CSV point-map import: identifier cleaning, type and unit tables,
  scale factor, value ranges, row handling, delimiter choice and preview
  categories;
- configuration loading: environment-value parsing, the nested `EMS_`
  override walk, display-name and icon fallbacks, and the minimum poll
  interval;
- the settings pages' in-memory tables (alerts, roles, tariffs, API keys),
  all of which allocate new ids as "max id + 1";
- per-device overrides kept in browser storage;
- the commissioning activation rule;
- the discovery sweep, the automation page's trend buffer and dry-run gate,
  and the navigation helper.

There is one Dafny module per source file:

| module | file |
|---|---|
| `EnhancedAddDevice` | enhanced_add_device.dfy |
| `SiteWizard` | site_wizard.dfy |
| `AddDevice` | add_device.dfy |
| `UiDashboard` | ui_dashboard.dfy |
| `ProfilesEditor` | profiles_editor.dfy |
| `ProfilesLegacy` | profiles_legacy.dfy |
| `CsvPointmap` | csv_pointmap.dfy |
| `Config` | config.dfy |
| `Commissioning` | commissioning.dfy |
| `AlertsCenter` | alerts_center.dfy |
| `Overrides` | overrides.dfy |
| `Rbac` | rbac.dfy |
| `Tariffs` | tariffs.dfy |
| `Integrations` | integrations.dfy |
| `Discovery` | discovery.dfy |
| `Automation` | automation.dfy |
| `NavHelper` | nav_helper.dfy |

Three shared modules hold the vocabulary:

- `Common`: an `Option` type plus `findIndex` and `filter`.
- `Strings`: JavaScript and Python string built-ins.
- `JsTables`: `Math.max(...ids) + 1` id allocation, and the `prompt() || default` idiom.

The source often changes state in place: a global wizard state, a
module-level array that is pushed, a field that is overwritten. Each such
piece is a class with those fields. Its methods carry `modifies this` and
state the new value of every field. The pure rules are functions with named
results. The properties that relate several calls are lemmas.

Several inputs are parameters rather than effects:

- the answers to `prompt` (`None` when cancelled) and `confirm`;
- the readings of `Date.now()`, and the outcomes of `Math.random()`;
- the results of `fetch`;
- the form fields the handlers read.

`localStorage` is a field or a map.

## Model

| member | source | states |
|---|---|---|
| JsTables.MaxId | src/ems/ui/static/assets/js/settings-rbac.js:36 | `Math.max(...ids)` is at least every id, is one of them when numeric, and is numeric whenever some id is |
| JsTables.NextIdFresh | src/ems/ui/static/assets/js/settings-rbac.js:36 | while the table holds a numeric id, `max + 1` is numeric and differs from every existing id |
| JsTables.NextIdAfterEmptying | src/ems/ui/static/assets/js/settings-rbac.js:36 | once a table is empty, the next id is `-Infinity`, and so is every id after it, so ids stop being distinct |
| JsTables.PromptOr | src/ems/ui/static/assets/js/settings-rbac.js:35 | `prompt() \|\| fallback`: a non-empty answer is kept; a cancelled or empty answer gives the fallback |
| Rbac.NewRoleRow | src/ems/ui/static/assets/js/settings-rbac.js:35-47 | the new role has all six permissions false and is named by the prompt, or 'Custom Role' when the prompt is empty or cancelled |
| Rbac.NewRoleIdFresh | src/ems/ui/static/assets/js/settings-rbac.js:36 | while some role has a numeric id, the new role's id is numeric and differs from every existing id |
| Rbac.EditedRoles | src/ems/ui/static/assets/js/settings-rbac.js:53-67 | an unknown id or a cancelled name changes nothing; otherwise the first role with the id gets the new name and six flags, and every other role is unchanged |
| Rbac.WithoutRole | src/ems/ui/static/assets/js/settings-rbac.js:79 | the survivors are exactly the roles whose id differs |
| Rbac.WithoutRoleKeepsOrder | src/ems/ui/static/assets/js/settings-rbac.js:79 | deletion keeps the survivors in their table order (it distributes over concatenation) |
| Rbac.SeedIdsDistinct | src/ems/ui/static/assets/js/settings-rbac.js:3-9 | the seed roles carry the distinct ids 1..5 in order |
| Rbac.RoleTable.constructor | src/ems/ui/static/assets/js/settings-rbac.js:3-9 | the table starts as the seed roles |
| Rbac.RoleTable.NewRole | src/ems/ui/static/assets/js/settings-rbac.js:35-47 | the table grows by exactly the new role, at the end |
| Rbac.RoleTable.EditRole | src/ems/ui/static/assets/js/settings-rbac.js:53-67 | the new table is `EditedRoles` of the old one |
| Rbac.RoleTable.DeleteRole | src/ems/ui/static/assets/js/settings-rbac.js:74-82 | after confirmation the roles with the id go and the rest stay in order; without confirmation, or for an unknown id, nothing changes |
| Tariffs.NewRule | src/ems/ui/static/assets/js/tariffs-crud.js:26-35 | the new rule has type 'custom'; empty answers default to season 'Yaz', range '00:00–23:59' and price '1.5' |
| Tariffs.NewRuleIdFresh | src/ems/ui/static/assets/js/tariffs-crud.js:31 | while some rule has a numeric id, the new rule's id differs from every existing one |
| Tariffs.Repriced | src/ems/ui/static/assets/js/tariffs-crud.js:37-47 | only the price of the first rule with the id changes; a cancelled prompt or an unknown id changes nothing |
| Tariffs.WithoutRule | src/ems/ui/static/assets/js/tariffs-crud.js:53 | the survivors are exactly the rules whose id differs |
| Tariffs.WithoutAbsentRule | src/ems/ui/static/assets/js/tariffs-crud.js:53 | deleting an id that no rule carries leaves the table as it was |
| Tariffs.TariffTable.constructor | src/ems/ui/static/assets/js/tariffs-crud.js:3-7 | the table starts as the seed rules |
| Tariffs.TariffTable.NewTariff | src/ems/ui/static/assets/js/tariffs-crud.js:26-35 | exactly one rule is appended |
| Tariffs.TariffTable.EditTariff | src/ems/ui/static/assets/js/tariffs-crud.js:37-47 | the new table is `Repriced` of the old one |
| Tariffs.TariffTable.DeleteTariff | src/ems/ui/static/assets/js/tariffs-crud.js:49-55 | after confirmation only the rules with the id go; without it nothing changes |
| Integrations.NewKey | src/ems/ui/static/assets/js/integrations-crud.js:31-50 | the key is '****' followed by the random suffix; empty answers default to name 'New API Key', scope 'read' and ip '0.0.0.0/0' |
| Integrations.NewKeyIdFresh | src/ems/ui/static/assets/js/integrations-crud.js:36 | while some key has a numeric id, the new key's id differs from every existing one |
| Integrations.EditedKeys | src/ems/ui/static/assets/js/integrations-crud.js:52-64 | scope and ip of the first key with the id change independently, each only when its prompt was answered; an unknown id changes nothing |
| Integrations.WithoutKey | src/ems/ui/static/assets/js/integrations-crud.js:69 | the survivors are exactly the keys whose id differs |
| Integrations.IntegrationTables.constructor | src/ems/ui/static/assets/js/integrations-crud.js:3-10 | both tables start as their seeds |
| Integrations.IntegrationTables.NewAPIKey | src/ems/ui/static/assets/js/integrations-crud.js:31-50 | exactly one key is appended, and the webhooks are untouched |
| Integrations.IntegrationTables.EditAPIKey | src/ems/ui/static/assets/js/integrations-crud.js:52-64 | the keys become `EditedKeys` of the old ones, and the webhooks are untouched |
| Integrations.IntegrationTables.DeleteAPIKey | src/ems/ui/static/assets/js/integrations-crud.js:66-72 | after confirmation only the keys with the id go; the webhooks are untouched |
| AlertsCenter.SeedIdsDistinct | src/ems/ui/static/assets/js/alerts-center.js:3-7 | the seed alerts carry the distinct ids 1..3, whatever the clock readings |
| AlertsCenter.RowActions | src/ems/ui/static/assets/js/alerts-center.js:39-41 | Ack is offered exactly for active alerts and Resolve exactly for acked ones, never both; Delete is always offered |
| AlertsCenter.WithStatus | src/ems/ui/static/assets/js/alerts-center.js:47-63 | each alert either stays as it was or is one with the id given the new status; the first alert with the id gets the new status whatever its old one; every other alert, later holders of the id included, is unchanged; an unknown id changes nothing |
| AlertsCenter.WithoutAlert | src/ems/ui/static/assets/js/alerts-center.js:68 | the survivors are exactly the alerts whose id differs |
| AlertsCenter.WithoutAlertKeepsOrder | src/ems/ui/static/assets/js/alerts-center.js:68 | deletion keeps the survivors in table order |
| AlertsCenter.FilterAlerts | src/ems/ui/static/assets/js/alerts-center.js:73-88 | lists only alerts of the table that pass the lowercased search and the severity selection, and no more alerts than the table holds |
| AlertsCenter.FilterAlertsMembership | src/ems/ui/static/assets/js/alerts-center.js:73-88 | an alert is listed iff it is in the table, its lowercased device or message contains the lowercased search, and its severity matches unless the selection is 'All' |
| AlertsCenter.FilterAlertsKeepsOrder | src/ems/ui/static/assets/js/alerts-center.js:73-88 | the listed alerts keep their table order |
| AlertsCenter.AlertTable.constructor | src/ems/ui/static/assets/js/alerts-center.js:3-7 | the table starts as the three seed alerts |
| AlertsCenter.AlertTable.AckAlert | src/ems/ui/static/assets/js/alerts-center.js:47-54 | the matching alert becomes 'acked', even when it was resolved; nothing else changes |
| AlertsCenter.AlertTable.ResolveAlert | src/ems/ui/static/assets/js/alerts-center.js:56-63 | the matching alert becomes 'resolved'; nothing else changes |
| AlertsCenter.AlertTable.DeleteAlert | src/ems/ui/static/assets/js/alerts-center.js:65-71 | after confirmation every alert with the id goes; without it nothing changes |
| AlertsCenter.AlertTable.Filtered | src/ems/ui/static/assets/js/alerts-center.js:73-88 | the listed alerts are `FilterAlerts` of the table, so they keep table order and multiplicity, and they are exactly the matching alerts; the table is not changed |
| Overrides.StorageKey | src/ems/ui/static/assets/js/overrides.js:12 | a device's storage key is 'overrides_' followed by its id |
| Overrides.StorageKeyInjective | src/ems/ui/static/assets/js/overrides.js:12 | two devices never share a storage key |
| Overrides.Load | src/ems/ui/static/assets/js/overrides.js:10-14 | a device with nothing stored loads as the empty map |
| Overrides.LoadAfterSave | src/ems/ui/static/assets/js/overrides.js:10-18 | loading returns what was last saved for that device; saving for one device does not disturb another |
| Overrides.ProfileLabel | src/ems/ui/static/assets/js/overrides.js:26 | the info bar shows a truthy `_profile`, and otherwise 'Generic SunSpec-103 v1.2' |
| Overrides.OverrideCount | src/ems/ui/static/assets/js/overrides.js:25 | the count is zero only for the empty map, and `_profile` counts as an override |
| Overrides.Current | src/ems/ui/static/assets/js/overrides.js:59-64 | a field shows its override when that is truthy, and its profile default otherwise |
| Overrides.OverriddenIff | src/ems/ui/static/assets/js/overrides.js:68 | 'Overridden' iff a truthy override differs from the default, so an override of 0 reads as 'Default' |
| Overrides.Reverted | src/ems/ui/static/assets/js/overrides.js:99 | exactly the named key goes; the other overrides are kept |
| Overrides.RevertShowsDefault | src/ems/ui/static/assets/js/overrides.js:96-100 | after a revert the field shows its default and is not marked overridden |
| Overrides.OverridesManager.constructor | src/ems/ui/static/assets/js/overrides.js:3-8 | the manager starts over the given storage |
| Overrides.OverridesManager.LoadOverrides | src/ems/ui/static/assets/js/overrides.js:10-14 | returns the stored map for the device, or the empty map |
| Overrides.OverridesManager.SaveOverrides | src/ems/ui/static/assets/js/overrides.js:16-18 | stores the map under the device's key |
| Overrides.OverridesManager.RevertField | src/ems/ui/static/assets/js/overrides.js:96-100 | what loads for the device afterwards is the old overrides without the named key |
| Automation.BreakerBadge | src/ems/ui/static/assets/js/automation.js:26 | closed gives green, open gives gray, and any other state gives red, each as an iff |
| Automation.DefaultSelection | src/ems/ui/static/assets/js/automation.js:49 | an existing selection is kept; otherwise the first breaker is selected when there is one; the selection stays empty iff none existed and the list is empty |
| Automation.AutoState.constructor | src/ems/ui/static/assets/js/automation.js:2-6 | role 'Operator', dry-run on, nothing selected |
| Automation.AutoState.SetDryRun | src/ems/ui/static/assets/js/automation.js:112 | only the dry-run flag changes |
| Automation.AutoState.SelectBreaker | src/ems/ui/static/assets/js/automation.js:64-67 | the selection becomes the breaker, and `renderMeasures` → `renderTrend` (lines 77-94) pushes exactly one sample when the chart is on the page; role and dry-run stay |
| Automation.AutoState.RenderBreakers | src/ems/ui/static/assets/js/automation.js:45-50 | the selection becomes `DefaultSelection` of the old one, and one trend sample is pushed exactly when that selection goes through `selectBreaker` and the chart is on the page |
| Automation.AutoState.Tick | src/ems/ui/static/assets/js/automation.js:114 | the two-second timer pushes one trend sample exactly when a breaker is selected and the chart is on the page |
| Automation.AutoState.ConfirmAndSend | src/ems/ui/static/assets/js/automation.js:99-108 | in dry-run mode the outcome is the '[Dry-run] …' notice and never the confirm modal; otherwise it is the confirm modal for that action and breaker |
| Automation.TrendPush | src/ems/ui/static/assets/js/automation.js:93-94 | the oldest sample is dropped only when more than 40 are held, then the new sample goes last |
| Automation.PushAll | src/ems/ui/static/assets/js/automation.js:90-94 | the buffer never holds more than 41 samples |
| Automation.TrendIsLatestWindow | src/ems/ui/static/assets/js/automation.js:90-94 | first in, first out: the buffer holds exactly the latest 41 samples, oldest first |
| Automation.WindowStep | src/ems/ui/static/assets/js/automation.js:93-94 | one push moves the window of the latest 41 samples on by exactly the new sample |
| Automation.Trend.constructor | src/ems/ui/static/assets/js/automation.js:90 | the trend starts empty |
| Automation.Trend.RenderTrend | src/ems/ui/static/assets/js/automation.js:91-94 | without the chart element nothing changes; otherwise exactly one `TrendPush` happens |
| NavHelper.PageKey | src/ems/ui/static/assets/js/nav-helper.js:58 | the key is a slash-free suffix of the path, and the whole path when it has no slash |
| NavHelper.LabelOr | src/ems/ui/static/assets/js/nav-helper.js:79 | a known key shows its label and an unknown key shows itself |
| NavHelper.LabelsNonEmpty | src/ems/ui/static/assets/js/nav-helper.js:59-88 | every fixed label is non-empty, so the `\|\|` fallback is taken exactly for unknown keys |
| NavHelper.CrumbFor | src/ems/ui/static/assets/js/nav-helper.js:57-91 | a settings path gets a settings breadcrumb; otherwise a pages path gets a pages breadcrumb; any other path gets none |
| NavHelper.SettingsWins | src/ems/ui/static/assets/js/nav-helper.js:57-82 | a path containing '/ui/settings/' never takes the pages branch |
| NavHelper.AddBreadcrumb | src/ems/ui/static/assets/js/nav-helper.js:3-21 | the breadcrumb is inserted only under a container with an h1 and no breadcrumb row yet; otherwise the page is unchanged |
| NavHelper.AddSettingsNav | src/ems/ui/static/assets/js/nav-helper.js:23-51 | the quick navigation is inserted only under a container with an h1 and no grid yet; otherwise the page is unchanged |
| NavHelper.OnLoad | src/ems/ui/static/assets/js/nav-helper.js:54-92 | no breadcrumb means the page is unchanged; a pages path gets exactly `AddBreadcrumb`; a settings path gets `AddBreadcrumb` then `AddSettingsNav`; at most two blocks are added and the earlier ones kept |
| NavHelper.BreadcrumbOnce | src/ems/ui/static/assets/js/nav-helper.js:17-20 | a second breadcrumb request adds nothing, whatever its label |
| NavHelper.OnLoadIdempotent | src/ems/ui/static/assets/js/nav-helper.js:54-92 | running the page-load handler again leaves the page as the first run left it |
| NavHelper.PagesPageGetsBreadcrumb | src/ems/ui/static/assets/js/nav-helper.js:54-92 | a fresh '/ui/pages/' page outside the settings gets exactly its breadcrumb, labelled from the pages table |
| NavHelper.OtherPageUnchanged | src/ems/ui/static/assets/js/nav-helper.js:54-92 | a path under neither prefix leaves the page as it was |
| NavHelper.SettingsPageGetsBoth | src/ems/ui/static/assets/js/nav-helper.js:79-80 | on a fresh settings page, exactly a breadcrumb and then the quick navigation are inserted |
| Discovery.SweepAddress | src/ems/ui/static/assets/js/discovery.js:62 | the i-th address starts with the base and a dot |
| Discovery.ExpandCIDR | src/ems/ui/static/assets/js/discovery.js:59-63 | always exactly 20 addresses, the i-th being the base, '.', then 10+i |
| Discovery.ExpandCIDRDistinct | src/ems/ui/static/assets/js/discovery.js:61-62 | the 20 addresses are pairwise distinct |
| Discovery.PrefixIgnored | src/ems/ui/static/assets/js/discovery.js:61 | the '/prefix' is ignored: a CIDR expands exactly like its bare address (not RFC 4632 section 3.1 semantics) |
| Discovery.FirstSegment | src/ems/ui/static/assets/js/discovery.js:61 | the part before the first '/' is the address text |
| Discovery.ProbeDevice | src/ems/ui/static/assets/js/discovery.js:27-47 | a probe returns a device iff its draw hit; the device carries the probed ip, the protocol and vendor 'Generic' |
| Discovery.Collected | src/ems/ui/static/assets/js/discovery.js:14-24 | a sweep returns no more devices than addresses, each for a probed address and the sweep's protocol |
| Discovery.CollectedAllHits | src/ems/ui/static/assets/js/discovery.js:14-24 | when every probe hits, the result has one device per address, in probe order |
| Discovery.CollectedNoHits | src/ems/ui/static/assets/js/discovery.js:14-24 | when no probe hits, the result is empty |
| Discovery.ScanCIDR | src/ems/ui/static/assets/js/discovery.js:10-25 | the loop returns the non-null probe results over the first 20 addresses, in order, so at most 20 |
| Discovery.AutoHintEndian | src/ems/ui/static/assets/js/discovery.js:69-83 | 'little' iff the type is 'float', there are at least two registers, and only the little-endian reading is plausible; 'big' in every other case |
| UiDashboard.ShownSections | src/ems/ui/static/ui.js:33-44 | at most one section is visible: the one named by the key when it exists, otherwise none |
| UiDashboard.BadgeStyle | src/ems/ui/static/ui.js:88-95 | green, amber and red get their own styles; any other kind gets the gray style |
| UiDashboard.PrKind | src/ems/ui/static/ui.js:106 | the PR chip is green iff pr ≥ 85, amber iff 70 ≤ pr < 85, and red iff pr < 70 |
| UiDashboard.AlarmChip | src/ems/ui/static/ui.js:108 | the alarm chip is red iff alarms > 0, and then shows the count, never '0'; otherwise it is a gray '0' |
| UiDashboard.MarkerColour | src/ems/ui/static/ui.js:60 | online gives green, degraded gives orange, and anything else gives red, each as an iff |
| UiDashboard.Matching | src/ems/ui/static/ui.js:318 | the kept sites are exactly those whose lowercased name contains the lowercased query |
| UiDashboard.MatchingAppend | src/ems/ui/static/ui.js:318 | matching a concatenation matches each part, so the kept sites stay in list order |
| UiDashboard.FilterSites | src/ems/ui/static/ui.js:314-318 | the list is the demo site when it matches, followed by every matching stored site in stored order (none when the stored JSON fails); every listed site matches |
| UiDashboard.EmptySearchKeepsAll | src/ems/ui/static/ui.js:318 | an empty search keeps every site, in order |
| UiDashboard.DefaultName | src/ems/ui/static/ui.js:422 | an unnamed device is called the type text, a dash, and digits whose value is n+1, where n is the prior list length |
| UiDashboard.DefaultNamesDiffer | src/ems/ui/static/ui.js:422 | default names given at different list lengths differ |
| UiDashboard.NewDevice | src/ems/ui/static/ui.js:422 | the device takes the name read from `#devName` when it is present and non-empty, else the default name; the endpoint read from `#host`, else ''; and carries the type and the wizard data |
| UiDashboard.NameOnPage | src/ems/ui/static/ui.js:367-368 | `#devName` exists, holding the typed text, exactly on the 'Basics' step |
| UiDashboard.HostOnPage | src/ems/ui/static/ui.js:376-384 | `#host` exists, holding the typed text, exactly on the 'Connection' step of the seven device types |
| UiDashboard.AddModal.constructor | src/ems/ui/static/ui.js:325 | no type, step 0, empty data |
| UiDashboard.AddModal.OpenAddModal | src/ems/ui/static/ui.js:327-335 | resets to step 0 and empty data for the given type; the stored devices stay |
| UiDashboard.AddModal.CloseAddModal | src/ems/ui/static/ui.js:337-340 | only hides the modal |
| UiDashboard.AddModal.NextPressed | src/ems/ui/static/ui.js:414 | forward by one while below step 6, with no validation |
| UiDashboard.AddModal.BackPressed | src/ems/ui/static/ui.js:413 | back by one while above step 0 |
| UiDashboard.AddModal.LabelClicked | src/ems/ui/static/ui.js:347 | any of the steps 0..6 directly |
| UiDashboard.AddModal.SaveNewDevice | src/ems/ui/static/ui.js:419-424 | as written: exactly one device is appended, built from `#devName` and `#host` as the current step's page holds them, and the modal closes |
| UiDashboard.SaveFromLastStepIgnoresTyping | src/ems/ui/static/ui.js:419-424 | a save from 'Commissioning', the only step showing Save (line 352) and whose body holds no input (lines 394-395), stores the default name and an empty endpoint whatever was typed |
| UiDashboard.TypedNameLost | src/ems/ui/static/ui.js:422 | 'Inverter A' typed into an empty list is saved as 'Inverter-1' with endpoint '' |
| UiDashboard.Remember | src/ems/ui/static/ui.js:422 | a value present on the page replaces the recorded one; a missing input keeps it |
| UiDashboard.AddModal.RecordInputs | src/ems/ui/static/ui.js:413-414 | corrected flow: the name and host present on the current page are recorded, nothing else changes |
| UiDashboard.AddModal.SaveRecordedDevice | src/ems/ui/static/ui.js:419-424 | corrected save: exactly one device, built from the recorded name and host, is appended and the modal closes |
| UiDashboard.RecordedSaveKeepsTyping | src/ems/ui/static/ui.js:422 | with the corrected flow, a non-empty name recorded on 'Basics' and a host recorded on 'Connection' become the device's name and endpoint |
| AddDevice.ButtonsAt | src/ems/ui/static/assets/js/add-device.js:25-27 | Back is hidden exactly at step 0; Next is hidden and Save shown exactly at step 8 |
| AddDevice.Title | src/ems/ui/static/assets/js/add-device.js:9 | the title is the type, or 'Device' without one, followed by ' — Add' |
| AddDevice.AddDeviceWizard.constructor | src/ems/ui/static/assets/js/add-device.js:4 | no type, step 0, no site context, empty data |
| AddDevice.AddDeviceWizard.Open | src/ems/ui/static/assets/js/add-device.js:6-14 | step 0 and empty data; the site context is the argument, or null for a missing or empty one |
| AddDevice.AddDeviceWizard.NextPressed | src/ems/ui/static/assets/js/add-device.js:62 | forward by one while below step 8; nothing is validated |
| AddDevice.AddDeviceWizard.BackPressed | src/ems/ui/static/assets/js/add-device.js:61 | back by one while above step 0 |
| AddDevice.AddDeviceWizard.LabelClicked | src/ems/ui/static/assets/js/add-device.js:22 | the label's step, whatever the current one |
| AddDevice.AddDeviceWizard.SavePressed | src/ems/ui/static/assets/js/add-device.js:63 | Save only hides the modal; no device data is stored |
| AddDevice.AddDeviceWizard.ClosePressed | src/ems/ui/static/assets/js/add-device.js:60 | only hides the modal |
| AddDevice.StepAfter | src/ems/ui/static/assets/js/add-device.js:22-63 | every action keeps the step in 0..8; Next, Back, a label and Save act as the buttons do |
| AddDevice.Run | src/ems/ui/static/assets/js/add-device.js:22-63 | any run of actions stays within 0..8 |
| AddDevice.EveryStepReachable | src/ems/ui/static/assets/js/add-device.js:22 | every step, the review included, is one label click from the start |
| AddDevice.NextWalk | src/ems/ui/static/assets/js/add-device.js:62 | n presses of Next from the start reach step n |
| EnhancedAddDevice.StepPasses | src/ems/ui/static/assets/js/enhanced-add-device.js:209-240 | 'Device Type' passes iff a type is set; 'Basic Information' passes iff id, plant, make and model are all non-empty; the other steps pass |
| EnhancedAddDevice.NextStep | src/ems/ui/static/assets/js/enhanced-add-device.js:189-197 | Next moves by exactly one only when the step passed and is not the last; otherwise the step stays |
| EnhancedAddDevice.BackStep | src/ems/ui/static/assets/js/enhanced-add-device.js:200-206 | Back moves by one only above step 0 |
| EnhancedAddDevice.LabelStep | src/ems/ui/static/assets/js/enhanced-add-device.js:259-264 | a label moves to its index only at or before the current step, so labels never skip forward |
| EnhancedAddDevice.RunStaysBehindValidation | src/ems/ui/static/assets/js/enhanced-add-device.js:77-85 | after any run of actions from the start, the step is within 0..6 and never ahead of the number of passed Next presses |
| EnhancedAddDevice.TemplatesFor | src/ems/ui/static/assets/js/enhanced-add-device.js:344-346 | the profile step offers exactly the profiles whose device type is the chosen one |
| EnhancedAddDevice.TemplatesForAppend | src/ems/ui/static/assets/js/enhanced-add-device.js:344-346 | offering from a concatenation offers from each part, so the offered profiles keep catalogue order |
| EnhancedAddDevice.FindTemplate | src/ems/ui/static/assets/js/enhanced-add-device.js:768-769 | as `find`: none iff no profile has the id; otherwise the first profile with the id |
| EnhancedAddDevice.Configuration | src/ems/ui/static/assets/js/enhanced-add-device.js:879-889 | the configuration carries the typed id, plant, make, model and chosen type, and a profile id iff a template with a non-empty id was chosen |
| EnhancedAddDevice.SaveOnlyOnBasicStep | src/ems/ui/static/assets/js/enhanced-add-device.js:852-885 | the save accepts the inputs on the page iff 'Basic Information' is shown and would let them through |
| EnhancedAddDevice.SaveFromLastStepRefused | src/ems/ui/static/assets/js/enhanced-add-device.js:852-885 | a save from the last step, the only one that shows the Save button, is always refused |
| EnhancedAddDevice.RecordedAfterBasics | src/ems/ui/static/assets/js/enhanced-add-device.js:232-235 | after a passing 'Basic Information' step, the recorded fields read back as exactly what was typed |
| EnhancedAddDevice.RecordedSaveAccepts | src/ems/ui/static/assets/js/enhanced-add-device.js:852-855 | a save from the recorded device data accepts after a passing 'Basic Information' step, and stores what was typed there |
| EnhancedAddDevice.AddDeviceState.constructor | src/ems/ui/static/assets/js/enhanced-add-device.js:68-75 | step 0, nothing chosen, empty profile and point-map lists |
| EnhancedAddDevice.AddDeviceState.LoadCatalogues | src/ems/ui/static/assets/js/enhanced-add-device.js:94-117 | the fetched catalogues, or the three fallback types with no profiles or maps when the fetch fails |
| EnhancedAddDevice.AddDeviceState.Open | src/ems/ui/static/assets/js/enhanced-add-device.js:155-164 | step 0, no template, empty data and the suggested type; loaded catalogues are kept, and become empty after a close |
| EnhancedAddDevice.AddDeviceState.Close | src/ems/ui/static/assets/js/enhanced-add-device.js:182-186 | the state is reset and the catalogues are dropped |
| EnhancedAddDevice.AddDeviceState.SelectDeviceType | src/ems/ui/static/assets/js/enhanced-add-device.js:750-751 | only the device type changes |
| EnhancedAddDevice.AddDeviceState.OfferedTemplates | src/ems/ui/static/assets/js/enhanced-add-device.js:344-346 | every offered template has the chosen device type |
| EnhancedAddDevice.AddDeviceState.SelectProfileTemplate | src/ems/ui/static/assets/js/enhanced-add-device.js:767-769 | the empty id clears the template; any other id selects the first profile with that id, or none |
| EnhancedAddDevice.AddDeviceState.ValidateCurrentStep | src/ems/ui/static/assets/js/enhanced-add-device.js:209-240 | the verdict is `StepPasses`; a passing 'Basic Information' copies exactly its four fields into the device data, and nothing else writes it |
| EnhancedAddDevice.AddDeviceState.NextStepPressed | src/ems/ui/static/assets/js/enhanced-add-device.js:189-197 | the step becomes `NextStep` of the validation verdict and stays within 0..6; a passing 'Basic Information' writes its four fields into the device data, and the type, template and catalogues are unchanged |
| EnhancedAddDevice.AddDeviceState.BackPressed | src/ems/ui/static/assets/js/enhanced-add-device.js:200-206 | the step becomes `BackStep`; nothing is validated |
| EnhancedAddDevice.AddDeviceState.LabelClicked | src/ems/ui/static/assets/js/enhanced-add-device.js:259-264 | the step becomes `LabelStep` |
| EnhancedAddDevice.AddDeviceState.SaveNewDevice | src/ems/ui/static/assets/js/enhanced-add-device.js:847-885 | the configuration is built from the inputs on the page; it is refused, changing nothing, unless 'Basic Information' is shown and complete; otherwise exactly one entry is appended to the stored devices and the modal is reset |
| EnhancedAddDevice.AddDeviceState.SaveRecordedDevice | src/ems/ui/static/assets/js/enhanced-add-device.js:847-866 | the save built from the recorded device data: refused, changing nothing, when a field is missing; otherwise exactly one entry appended and the modal reset |
| SiteWizard.GoStep | src/ems/ui/static/assets/js/site-wizard.js:41-42 | a number outside 1..7 is ignored; otherwise the step becomes that number |
| SiteWizard.AcceptedBasics | src/ems/ui/static/assets/js/site-wizard.js:59-66 | the recorded basics are the trimmed name, code and operator, the site type, and a contact of the trimmed name, e-mail and phone |
| SiteWizard.AcceptedLocation | src/ems/ui/static/assets/js/site-wizard.js:77-83 | the accepted coordinates and the trimmed country, city and address are recorded; an empty time zone becomes 'UTC', any other is kept trimmed |
| SiteWizard.WrittenCapacity | src/ems/ui/static/assets/js/site-wizard.js:88-102 | dcMWp and acMVA are the parsed numbers or 0, and the topology, inverter count and battery flag come from the form; the battery figures are written only when a battery is declared, and the old ones kept otherwise |
| SiteWizard.DiscoverDevices | src/ems/ui/static/assets/js/site-wizard.js:105-111 | the mock result holds an online inverter and an online BMS |
| SiteWizard.DiscoveryAlwaysReady | src/ems/ui/static/assets/js/site-wizard.js:133-139 | after a discovery run the discovery check passes, whatever the capacity says |
| SiteWizard.DashedShape | src/ems/ui/static/assets/js/site-wizard.js:182 | the dash pass leaves only [a-z0-9] and dashes, never two dashes in a row; its output ends with a dash iff the input ends outside [a-z0-9], and is empty iff the input is |
| SiteWizard.DashedRun | src/ems/ui/static/assets/js/site-wizard.js:182 | a run of characters outside [a-z0-9] becomes one dash |
| SiteWizard.DashedAppend | src/ems/ui/static/assets/js/site-wizard.js:182 | cut where an [a-z0-9] character meets the cut, the dash pass works on each part separately, so the kept characters stay in order |
| SiteWizard.DropEdgeDashes | src/ems/ui/static/assets/js/site-wizard.js:182 | the result neither starts nor ends with a dash, and the input is the result with at most one dash added at each end |
| SiteWizard.Slug | src/ems/ui/static/assets/js/site-wizard.js:181-182 | the id has only [a-z0-9] and single inner dashes, with no dash at either end |
| SiteWizard.SlugOfWords | src/ems/ui/static/assets/js/site-wizard.js:181-182 | two [a-z0-9] words around a run of other characters give the two words joined by one dash |
| SiteWizard.SlugOfLowered | src/ems/ui/static/assets/js/site-wizard.js:181 | the id of a text is the id of its lowercase form |
| SiteWizard.DottedCapitalSlug | src/ems/ui/static/assets/js/site-wizard.js:181-182 | 'İ' lowers to 'i' and a combining dot, so 'İzmir' gets the id 'i-zmir' |
| SiteWizard.DashedKeepsSlugText | src/ems/ui/static/assets/js/site-wizard.js:182 | text that is already slug characters with single dashes is not changed by the dash pass |
| SiteWizard.SlugIdempotent | src/ems/ui/static/assets/js/site-wizard.js:181-182 | making a slug of a slug changes nothing |
| SiteWizard.SlugOfSlug | src/ems/ui/static/assets/js/site-wizard.js:181-182 | a text in slug form is its own slug |
| SiteWizard.SiteId | src/ems/ui/static/assets/js/site-wizard.js:181-182 | the site id is the slug of the code when one is given, else of the name, and is always in slug form |
| SiteWizard.UnnamedSiteId | src/ems/ui/static/assets/js/site-wizard.js:181 | a site without name or code gets the id 'site' |
| SiteWizard.NewSite | src/ems/ui/static/assets/js/site-wizard.js:183-191 | the record carries the slug id and the name; a zero coordinate falls back to Ankara's; the capacity is acMVA, else dcMWp, else 0; it has a state of charge iff a battery was declared and sized |
| SiteWizard.WizardState.constructor | src/ems/ui/static/assets/js/site-wizard.js:6-15 | step 1 with the initial basics, location and capacity, so the wizard starts on one of its seven steps |
| SiteWizard.WizardState.Go | src/ems/ui/static/assets/js/site-wizard.js:41-48 | the step becomes `GoStep`, so it stays within 1..7, and nothing else changes |
| SiteWizard.WizardState.ValidateBasics | src/ems/ui/static/assets/js/site-wizard.js:50-72 | accepts iff the trimmed name is non-empty and not 'existing site' in any case, and the e-mail and phone are each empty or match their patterns; the basics are written only on acceptance |
| SiteWizard.WizardState.ValidateLocation | src/ems/ui/static/assets/js/site-wizard.js:74-86 | accepts iff the latitude is in [-90,90] and the longitude in [-180,180]; the location is written only on acceptance |
| SiteWizard.WizardState.ValidateCapacity | src/ems/ui/static/assets/js/site-wizard.js:88-103 | passes iff the inverter count is positive, yet writes the capacity fields even when it fails |
| SiteWizard.WizardState.NextPressed | src/ems/ui/static/assets/js/site-wizard.js:208-215 | moves to step+1 only when the current step's check passes (steps 5 and 6 always pass); step 7 stays; the step stays within 1..7; only the checked step's data is written |
| SiteWizard.WizardState.BackPressed | src/ems/ui/static/assets/js/site-wizard.js:207 | back by one only above step 1, with no check, staying within 1..7 |
| SiteWizard.WizardState.LabelClicked | src/ems/ui/static/assets/js/site-wizard.js:36 | a label jumps to any of steps 1..7 with no check |
| SiteWizard.WizardState.DiscoverClicked | src/ems/ui/static/assets/js/site-wizard.js:219-223 | the mock result replaces the discovered list |
| SiteWizard.WizardState.ProvisionSite | src/ems/ui/static/assets/js/site-wizard.js:174-195 | exactly one site is appended |
| SiteWizard.StepsStayInRange | src/ems/ui/static/assets/js/site-wizard.js:207-215 | from any step in 1..7, Next and Back stay in 1..7 |
| ProfilesEditor.ListedProfiles | src/ems/ui/static/assets/js/profiles-new.js:529-541 | a profile is listed iff the search is empty or the lowercased name or description contains it, and the type and protocol filters are each empty or equal |
| ProfilesEditor.ListedProfilesAppend | src/ems/ui/static/assets/js/profiles-new.js:529-541 | listing distributes over concatenation, so the listed profiles keep catalogue order |
| ProfilesEditor.NoFilterListsAll | src/ems/ui/static/assets/js/profiles-new.js:529-541 | with every filter empty the whole catalogue is listed, in order |
| ProfilesEditor.NonEmptyTrimmed | src/ems/ui/static/assets/js/profiles-new.js:1276 | the kept pieces are non-empty and have no white space at either end |
| ProfilesEditor.ParseTags | src/ems/ui/static/assets/js/profiles-new.js:1276 | every tag is non-empty and trimmed |
| ProfilesEditor.TagsRoundTrip | src/ems/ui/static/assets/js/profiles-new.js:1276 | trimmed, non-empty, comma-free tags come back unchanged from their comma-joined text |
| ProfilesEditor.AllTrimmedKept | src/ems/ui/static/assets/js/profiles-new.js:1276 | pieces that are already trimmed and non-empty are all kept, in order |
| ProfilesEditor.FormProblem | src/ems/ui/static/assets/js/profiles-new.js:1280-1293 | there is no problem iff name, device type and protocol are all non-empty; an empty name is reported first |
| ProfilesEditor.WithForm | src/ems/ui/static/assets/js/profiles-new.js:1296 | every form field (name, description, type, protocol, default point map, poll interval, connection and capabilities) replaces the profile's, the id stays, and the tags are the parsed tag text |
| ProfilesEditor.SavedInto | src/ems/ui/static/assets/js/profiles-new.js:1299-1307 | the first entry with the id is replaced in place, or the profile is appended when none has it; entries with other ids and later entries with the same id are unchanged |
| ProfilesEditor.SavedIsFound | src/ems/ui/static/assets/js/profiles-new.js:1299-1307 | looking the saved id up afterwards finds the saved profile |
| ProfilesEditor.WithoutProfile | src/ems/ui/static/assets/js/profiles-new.js:1441 | the survivors are exactly the profiles whose id differs |
| ProfilesEditor.WithoutAbsentProfile | src/ems/ui/static/assets/js/profiles-new.js:1441 | deleting an id that nothing carries changes nothing |
| ProfilesEditor.ProfileEditor.constructor | src/ems/ui/static/assets/js/profiles-new.js:9-10 | nothing is current and there is no snapshot |
| ProfilesEditor.ProfileEditor.SelectProfile | src/ems/ui/static/assets/js/profiles-new.js:592-594 | the profile becomes current, and a copy of it becomes the reset snapshot |
| ProfilesEditor.ProfileEditor.SaveProfile | src/ems/ui/static/assets/js/profiles-new.js:1262-1320 | without a current profile, or with an empty name, type or protocol, nothing changes; otherwise the updated profile is upserted into the stored list and becomes the snapshot |
| ProfilesEditor.ProfileEditor.DeleteProfile | src/ems/ui/static/assets/js/profiles-new.js:1434-1448 | once confirmed, every stored profile with the current id goes, and the current profile and snapshot are cleared |
| ProfilesEditor.ProfileEditor.ResetProfile | src/ems/ui/static/assets/js/profiles-new.js:1450-1458 | once confirmed, the snapshot becomes the current profile again |
| ProfilesEditor.ProfileEditor.CopyProfile | src/ems/ui/static/assets/js/profiles-new.js:1460-1479 | a named copy with id 'profile-<now>' is appended; an empty or cancelled name copies nothing |
| ProfilesEditor.PointErrors | src/ems/ui/static/assets/js/profiles-new.js:1595-1599 | a point has at most three errors, and none iff it has a name, a defined address and a type |
| ProfilesEditor.PointsErrors | src/ems/ui/static/assets/js/profiles-new.js:1592-1600 | no errors iff every point has a name, a defined address and a type |
| ProfilesEditor.MetadataErrors | src/ems/ui/static/assets/js/profiles-new.js:1585-1590 | no metadata errors iff the metadata has a name and a version |
| ProfilesEditor.ValidatePointMap | src/ems/ui/static/assets/js/profiles-new.js:1575-1614 | the loop reports no errors iff the map is well formed; the errors are the metadata errors followed by the per-point errors, or by the single points-array error |
| ProfilesEditor.FindPointMap | src/ems/ui/static/assets/js/profiles-new.js:996 | as `find`: none iff no known map matches by path or by bare name; otherwise the first map that matches |
| ProfilesEditor.StatusOf | src/ems/ui/static/assets/js/profiles-new.js:980-1012 | no selection for a blank path; ✓ iff a known map matches; otherwise ⚠ with the file name iff the path mentions '.yaml' or '.yml'; otherwise ❌ |
| ProfilesEditor.PreviewLines | src/ems/ui/static/assets/js/profiles-new.js:947-957 | one line per point, in order |
| ProfilesEditor.PointsPreview | src/ems/ui/static/assets/js/profiles-new.js:945-961 | a count line, then at most the first 10 points, then '... and N more points' exactly when there are more than 10 |
| ProfilesLegacy.IndexOf | src/ems/ui/static/assets/js/profiles.js:382 | the first position holding the id, or none iff no profile has it |
| ProfilesLegacy.AppendedIsFound | src/ems/ui/static/assets/js/profiles.js:467-489 | a profile appended under a fresh id is found at the end |
| ProfilesLegacy.WithoutId | src/ems/ui/static/assets/js/profiles.js:585 | the survivors are exactly the profiles whose id differs |
| ProfilesLegacy.WithoutIdCount | src/ems/ui/static/assets/js/profiles.js:585 | deletion keeps every other profile as many times as it occurred |
| ProfilesLegacy.WithoutIdKeepsOrder | src/ems/ui/static/assets/js/profiles.js:585 | deletion distributes over concatenation, so the surviving profiles keep their order |
| ProfilesLegacy.Updated | src/ems/ui/static/assets/js/profiles.js:522-537 | the six scalar fields and six capability flags take the form's values; id, description and preview stay |
| ProfilesLegacy.NewProfile | src/ems/ui/static/assets/js/profiles.js:467-482 | id 'profile-<now>', the given name, protocol modbus_tcp, poll interval 30, timeout 3000, retries 3, and all six capabilities false |
| ProfilesLegacy.SnapshotFor | src/ems/ui/static/assets/js/profiles.js:381-387 | a copy of the first profile with the id, or the previous snapshot when no profile has it |
| ProfilesLegacy.ResetKeepsId | src/ems/ui/static/assets/js/profiles.js:381-387 | a snapshot taken by selecting carries the selected id |
| ProfilesLegacy.ResetAfterSaveKeepsSave | src/ems/ui/static/assets/js/profiles.js:515-578 | saving and then resetting leaves the saved values, because the save re-selects |
| ProfilesLegacy.IndexOfFirst | src/ems/ui/static/assets/js/profiles.js:382 | the first position holding the id is the one found |
| ProfilesLegacy.DriverProfiles.constructor | src/ems/ui/static/assets/js/profiles.js:357-358 | the catalogue, with no selection and no snapshot |
| ProfilesLegacy.DriverProfiles.SelectProfile | src/ems/ui/static/assets/js/profiles.js:381-387 | the id is selected even when unknown; the snapshot changes only when a profile has the id |
| ProfilesLegacy.DriverProfiles.CreateNewProfile | src/ems/ui/static/assets/js/profiles.js:463-491 | an empty or cancelled name changes nothing; otherwise one new profile is appended and selected |
| ProfilesLegacy.DriverProfiles.SaveProfile | src/ems/ui/static/assets/js/profiles.js:515-545 | nothing happens without a selected, existing profile; otherwise exactly that profile is overwritten and becomes the snapshot |
| ProfilesLegacy.DriverProfiles.ResetProfile | src/ems/ui/static/assets/js/profiles.js:566-578 | once confirmed, the entry at the selected index becomes the snapshot; other entries stay |
| ProfilesLegacy.DriverProfiles.DeleteProfile | src/ems/ui/static/assets/js/profiles.js:581-591 | once confirmed, the entries with the selected id go, and the selection and snapshot are cleared |
| CsvPointmap.SpellOutChar | scripts/csv_to_pointmap.py:24-30 | each of ∑ Δ φ θ α β γ becomes its named token; any other character stays |
| CsvPointmap.SpellOut | scripts/csv_to_pointmap.py:24-30 | after spelling out, no special symbol is left, and text without one is unchanged |
| CsvPointmap.Sanitize | scripts/csv_to_pointmap.py:33 | each character that is not alphanumeric, '_' or '-' becomes '_', and the others stay |
| CsvPointmap.CleanParameterName | scripts/csv_to_pointmap.py:21-39 | the result is non-empty, made of alphanumerics, '_' and '-', never starts with a digit, and is 'UNKNOWN' for empty input |
| CsvPointmap.CleanedHasNoSpelledOut | scripts/csv_to_pointmap.py:21-39 | a cleaned name holds none of the special symbols |
| CsvPointmap.CleanIdempotent | scripts/csv_to_pointmap.py:21-39 | cleaning a cleaned name changes nothing |
| CsvPointmap.ConvertDataType | scripts/csv_to_pointmap.py:41-54 | the trimmed, lowercased type is looked up in the table, and unknown types give 'float32' |
| CsvPointmap.ConvertUnit | scripts/csv_to_pointmap.py:56-74 | the stripped unit is looked up in the table, and unknown units pass through stripped; the result is never empty |
| CsvPointmap.UnitConversions | scripts/csv_to_pointmap.py:58-70 | mA, W, var and C are each converted to a different unit |
| CsvPointmap.BlankUnitIsNone | scripts/csv_to_pointmap.py:70-74 | a blank unit becomes 'none' |
| CsvPointmap.ScaleFactor | scripts/csv_to_pointmap.py:76-85 | the factor is 0.001 exactly for (mA,A), (W,kW) and (var,kVar), and 1 otherwise |
| CsvPointmap.AdjustScale | scripts/csv_to_pointmap.py:76-85 | the scale is divided by 1000 for those three conversions and left unchanged otherwise |
| CsvPointmap.RangeFor | scripts/csv_to_pointmap.py:166-177 | [0,1000] for V, [0,10000] for A, [45,55] for Hz and [0,100] for %; no range iff the unit is none of these |
| CsvPointmap.Truncate | scripts/csv_to_pointmap.py:133 | Python's `int()` on a float truncates toward zero |
| CsvPointmap.ParseRow | scripts/csv_to_pointmap.py:123-179 | an accepted row is named and its point has function code 3 (Read Holding Registers, section 6.3 of the Modbus Application Protocol Specification V1.1b3), read-only, offset 0, the truncated register address, the converted length (2 for a blank cell), the cleaned name, the converted unit and its range, the converted data type, the scale adjusted to the unit, the stripped description (the parameter when the column is absent), and the parameter and unit as read |
| CsvPointmap.ParseLength | scripts/csv_to_pointmap.py:133-134 | after the register: a missing length cell raises; the row is rejected iff the length does not convert or the later scale rejects; accepted iff the length converts and the later cells accept |
| CsvPointmap.ParsePoint | scripts/csv_to_pointmap.py:137-139 | after the length: a missing unit or scale cell raises; rejected iff both are read and the scale does not convert; accepted iff all four later cells are present and the scale converts |
| CsvPointmap.ParseTyped | scripts/csv_to_pointmap.py:141-179 | after the scale: accepted iff the type and description cells are present, with the point built from the cells; otherwise the missing cell raises |
| CsvPointmap.RowOutcomes | scripts/csv_to_pointmap.py:123-164 | a missing register cell raises, and so does a missing parameter cell after a given register; skipped iff the register or then the parameter is blank; a named row is rejected iff a ValueError comes first, accepted iff every stage succeeds, and raises on an infinite register |
| CsvPointmap.AcceptedIffWellFormed | scripts/csv_to_pointmap.py:123-164 | a row is accepted iff its register and parameter are given, every cell read is present, and the register, length and scale convert |
| CsvPointmap.MissingCellRaises | scripts/csv_to_pointmap.py:123-142 | a missing cell of a named row ends the import unless a number read earlier rejects the row |
| CsvPointmap.IntOfFloat | scripts/csv_to_pointmap.py:132 | `int(float(text))` truncates a finite value, raises a caught ValueError for text `float` refuses or NaN, and an uncaught OverflowError for an infinity |
| CsvPointmap.ShortRowRaises | scripts/csv_to_pointmap.py:123 | a row shorter than the header, whose register cell is `None`, raises on `strip` and ends the import |
| CsvPointmap.InfiniteRegisterRaises | scripts/csv_to_pointmap.py:132 | a register cell that reads as infinity, such as 'inf' or '1e999', raises OverflowError and ends the import |
| CsvPointmap.AbsentColumnsGiveDefaults | scripts/csv_to_pointmap.py:132-138 | in a file without the length and scale columns, an accepted row has two registers and the unit conversion's scale, given that `float()` reads '2' as 2 and '1.0' as 1 |
| CsvPointmap.ConvertUnitStripped | scripts/csv_to_pointmap.py:72-73 | converting a stripped unit equals converting the raw one |
| CsvPointmap.Upsert | scripts/csv_to_pointmap.py:179 | a new name is appended; a known name keeps its place and takes the new point; other entries stay |
| CsvPointmap.UpsertDistinct | scripts/csv_to_pointmap.py:179 | upserting keeps the names distinct |
| CsvPointmap.UpsertLookup | scripts/csv_to_pointmap.py:179 | after an upsert, the name looks up the new point |
| CsvPointmap.ImportedDistinct | scripts/csv_to_pointmap.py:120-179 | the imported points have distinct names |
| CsvPointmap.LastRowWins | scripts/csv_to_pointmap.py:120-179 | a later accepted row overwrites any earlier point with the same cleaned name; a skipped or rejected row changes nothing; a raising row ends the import |
| CsvPointmap.ImportRows | scripts/csv_to_pointmap.py:120-179 | the row loop, parsing one row per step, computes the fold of the row outcomes (upsert on accept, stop on the first raise, nothing otherwise), with distinct names |
| CsvPointmap.FoldAbortedIff | scripts/csv_to_pointmap.py:120-179 | the loop ends in an exception iff one of the row outcomes raises |
| CsvPointmap.FoldAbortedPrefix | scripts/csv_to_pointmap.py:120-179 | once a raising row has ended the loop, no later row changes that |
| CsvPointmap.FoldDistinct | scripts/csv_to_pointmap.py:179 | points left by the loop have distinct names |
| CsvPointmap.ImportedStep | scripts/csv_to_pointmap.py:120-179 | importing one more row applies that row's outcome to the points so far |
| CsvPointmap.ParsePoints | scripts/csv_to_pointmap.py:120-184 | the row loop computes the imported points, with distinct names, or stops at the first row that raises |
| CsvPointmap.AbortedIffRowRaises | scripts/csv_to_pointmap.py:120-184 | the import ends in an error iff some row raises; skipped and rejected rows never end it |
| CsvPointmap.Sample | scripts/csv_to_pointmap.py:111 | the sample is the text's first (at most) 1024 characters |
| CsvPointmap.Delimiter | scripts/csv_to_pointmap.py:116 | ';' iff the sample holds more ';' than ',', otherwise ',' |
| CsvPointmap.CategoryOf | scripts/csv_to_pointmap.py:238-249 | the first of voltage (V, 'gerilim', 'voltage'), current (A, 'akım', 'current'), power (kW, kVar, kVA, W, var, VA, 'güç', 'power'), energy (kWh, 'enerji', 'energy') and frequency (Hz, 'frekans', 'frequency') whose unit or lowercased-description hint the point carries, each stated as an iff; 'other' iff it carries none |
| CsvPointmap.CountIn | scripts/csv_to_pointmap.py:229-249 | a category never holds more points than there are |
| CsvPointmap.CategoriesPartition | scripts/csv_to_pointmap.py:229-253 | the six category counts add up to the number of points |
| Config.Digits | src/ems/utils/config.py:434 | the text with every underscore removed and every other character kept in order, its length reduced by the underscore count |
| Config.PyInt | src/ems/utils/config.py:434 | `int()` accepts only text that is non-empty once stripped |
| Config.DigitsFilters | src/ems/utils/config.py:434 | dropping underscores is the filter that keeps exactly the characters other than `_`, in order |
| Config.DigitsOfDigitString | src/ems/utils/config.py:434 | a digit string has no underscores to drop |
| Config.DigitStringIsGroup | src/ems/utils/config.py:434 | a digit string is one digit group |
| Config.SignedDigits | src/ems/utils/config.py:434 | decimal digits read as their value |
| Config.SignedNegatedDigits | src/ems/utils/config.py:434 | '-' then decimal digits read as the negated value |
| Config.DigitEndsUnstripped | src/ems/utils/config.py:434 | a number's text has no white space to strip |
| Config.PyIntOfDigits | src/ems/utils/config.py:434 | `int()` of decimal digits is their value |
| Config.PyIntOfNegatedDigits | src/ems/utils/config.py:434 | `int()` of '-' and decimal digits is the negated value |
| Config.PyIntRoundTrip | src/ems/utils/config.py:434 | `int()` reads back every integer written in decimal |
| Config.ParseEnvValue | src/ems/utils/config.py:427-436 | 'true'/'false' in any case give booleans; text with '.' is the float `float()` gives whenever it parses; text without '.' that `int()` accepts is that int; the text stays a string iff it is neither word and the chosen parse fails |
| Config.IntegerValuesParse | src/ems/utils/config.py:431-434 | a decimal integer in an environment variable is read as that integer |
| Config.IntTextHasNoDot | src/ems/utils/config.py:432 | an integer's decimal text never takes the float branch |
| Config.SetPath | src/ems/utils/config.py:443-449 | the walk adds the first key, keeps every other top-level key, and puts the value at the end of the path |
| Config.SetThenGet | src/ems/utils/config.py:443-449 | afterwards the path leads to the assigned value |
| Config.IntermediateKept | src/ems/utils/config.py:445-448 | a mapping met on the way keeps its other keys; a missing or non-mapping step is replaced by an empty mapping |
| Config.OverridePath | src/ems/utils/config.py:443 | the path after 'EMS_', lowercased and split on '__', has at least one part |
| Config.Prefixed | src/ems/utils/config.py:440-442 | every kept entry's name starts with 'EMS_', and there are no more entries than in the input |
| Config.PrefixedKeepsAll | src/ems/utils/config.py:440-442 | no entry whose name starts with 'EMS_' is dropped |
| Config.OnlyPrefixedCount | src/ems/utils/config.py:440-442 | variables without the 'EMS_' prefix do not affect the result |
| Config.LastAssignmentWins | src/ems/utils/config.py:439-449 | the last variable naming a path decides the parsed value found there |
| Config.ApplyEnvOverrides | src/ems/utils/config.py:439-449 | the loop's result is the configuration after all entries are applied in order |
| Config.TitleFrom | src/ems/utils/config.py:50 | title case keeps the length |
| Config.Title | src/ems/utils/config.py:50 | title case keeps the length |
| Config.TitleCharacters | src/ems/utils/config.py:50 | each title character depends only on itself and on whether a letter precedes it |
| Config.DisplayName | src/ems/utils/config.py:32-50 | a known type gets its fixed name; otherwise '_' becomes ' ' and the text is title-cased |
| Config.UnknownDisplayName | src/ems/utils/config.py:50 | 'unknown' is shown as 'Unknown' |
| Config.UnlistedLowerWord | src/ems/utils/config.py:50 | an unlisted lower-case word is shown with its first letter capitalised |
| Config.UnknownIsUnlisted | src/ems/utils/config.py:34-49 | 'unknown' is not a listed type |
| Config.LowerAfterLetter | src/ems/utils/config.py:50 | lower-case letters after a letter stay as they are in title case |
| Config.Icon | src/ems/utils/config.py:53-71 | a known type gets its fixed icon; otherwise the pager '📟' |
| Config.TablesCoverSameTypes | src/ems/utils/config.py:34-70 | the name table and the icon table cover the same fourteen types |
| Config.MinPoll | src/ems/utils/config.py:239-243 | a poll interval is accepted iff it is at least 5, is then returned unchanged, and otherwise fails with the source's message |
| Commissioning.InverterTemplate | src/ems/ui/static/assets/js/commissioning.js:6-12 | five tests with distinct ids |
| Commissioning.BmsTemplate | src/ems/ui/static/assets/js/commissioning.js:13-19 | five tests with distinct ids |
| Commissioning.BreakersTemplate | src/ems/ui/static/assets/js/commissioning.js:20-26 | five tests with distinct ids |
| Commissioning.AnalyzersTemplate | src/ems/ui/static/assets/js/commissioning.js:27-33 | five tests with distinct ids |
| Commissioning.GetTemplate | src/ems/ui/static/assets/js/commissioning.js:37-40 | the lowercased type selects its template, and any unknown type falls back to the inverter template |
| Commissioning.FindTest | src/ems/ui/static/assets/js/commissioning.js:92 | finds a test iff the template has one with the id |
| Commissioning.RequiredTotal | src/ems/ui/static/assets/js/commissioning.js:90 | the required count never exceeds the template size |
| Commissioning.RequiredIdsMembers | src/ems/ui/static/assets/js/commissioning.js:90 | an id is required iff some test with that id is marked required |
| Commissioning.RequiredCounts | src/ems/ui/static/assets/js/commissioning.js:6-33 | inverter requires 4 tests, bms 3, breakers 5 and analyzers 3 |
| Commissioning.RequiredIdSets | src/ems/ui/static/assets/js/commissioning.js:6-33 | the required ids of each template, by name |
| Commissioning.InverterRequiredIds | src/ems/ui/static/assets/js/commissioning.js:6-12 | the inverter requires conn, sunspec, acdc and phase |
| Commissioning.BmsRequiredIds | src/ems/ui/static/assets/js/commissioning.js:13-19 | the BMS requires conn, soc and pack |
| Commissioning.BreakersRequiredIds | src/ems/ui/static/assets/js/commissioning.js:20-26 | breakers require all five tests |
| Commissioning.AnalyzersRequiredIds | src/ems/ui/static/assets/js/commissioning.js:27-33 | analyzers require conn, vip and ptct |
| Commissioning.PassedCount | src/ems/ui/static/assets/js/commissioning.js:97 | no more passes than results |
| Commissioning.RequiredPassedCount | src/ems/ui/static/assets/js/commissioning.js:91-94 | the required passes are among all the passes |
| Commissioning.CalculateOverallStatus | src/ems/ui/static/assets/js/commissioning.js:88-106 | requiredPassed is the count of passed results naming a required test of the template, totalPassed the count of passed results, totalTests the number of results; canActivate iff requiredPassed equals the required count; 'Active' iff canActivate, otherwise 'Draft'; the template comes from the first result's type, with inverter as the default |
| Commissioning.PassedRequiredIdsMembers | src/ems/ui/static/assets/js/commissioning.js:91-94 | an id counts iff a passed result names a required test with it |
| Commissioning.IsRequiredMeans | src/ems/ui/static/assets/js/commissioning.js:92-93 | with distinct ids, `find(...)?.required` is membership in the required ids |
| Commissioning.CountIsIdCount | src/ems/ui/static/assets/js/commissioning.js:91-96 | with distinct result ids, the required-pass count is the number of distinct passed required ids |
| Commissioning.RequiredIdCount | src/ems/ui/static/assets/js/commissioning.js:90 | with distinct test ids, there are as many required ids as required tests |
| Commissioning.PassedWithinRequired | src/ems/ui/static/assets/js/commissioning.js:91-94 | the ids that count are required ids |
| Commissioning.CoverageIsInclusion | src/ems/ui/static/assets/js/commissioning.js:90-96 | every required test has a passing result iff the required ids are among the passed ones |
| Commissioning.CanActivateIffAllRequiredPassed | src/ems/ui/static/assets/js/commissioning.js:90-96 | with one result per test, activation is allowed iff every required test of the template has a passing result |
| Commissioning.OverallStatusMeaning | src/ems/ui/static/assets/js/commissioning.js:88-106 | with one result per test, canActivate iff every required test of the chosen template passed |
| Commissioning.RepeatedPassesActivate | src/ems/ui/static/assets/js/commissioning.js:91-96 | the count is of results, not of tests: four passes of 'conn' activate an inverter whose other required tests never ran |
| Commissioning.RequiredPassedCountAppend | src/ems/ui/static/assets/js/commissioning.js:91-94 | appending a result adds one to the count exactly when that result counts |
| Commissioning.ExtraPassKeepsDraft | src/ems/ui/static/assets/js/commissioning.js:91-96 | once activation is allowed, one more counting pass (a re-run) overshoots the equality and turns the recommendation back to 'Draft' |
| Commissioning.TestDetails | src/ems/ui/static/assets/js/commissioning.js:64-86 | a known id gives its table message, the pass text when passed and the fail text otherwise; ids outside the table give 'OK' or 'Failed'; the message is never empty |
| Commissioning.KnownDetail | src/ems/ui/static/assets/js/commissioning.js:65-83 | every table entry has non-empty pass and fail messages |
| Strings.Lower | src/ems/ui/static/assets/js/alerts-center.js:74 | the lowercase text has no capital of the Latin letters left and is never shorter than the input |
| Strings.LowerChar | src/ems/ui/static/assets/js/alerts-center.js:74 | a capital of ASCII, Latin-1 or Latin Extended-A becomes a small letter, an ASCII capital the letter 32 code points on; any other character stays |
| Strings.LowerOf | src/ems/ui/static/assets/js/alerts-center.js:74 | 'İ' lowers to 'i' and a combining dot above; any other character to its one small letter |
| Strings.LowerPointwise | src/ems/ui/static/assets/js/alerts-center.js:74 | without an 'İ', lowering keeps the length and maps each character on its own |
| Strings.LowerAppend | src/ems/ui/static/assets/js/alerts-center.js:74 | lowering a concatenation lowers each part |
| Strings.LowerIdempotent | src/ems/ui/static/assets/js/alerts-center.js:74 | lowercasing twice is lowercasing once |
| Strings.Find | src/ems/ui/static/assets/js/profiles-new.js:996 | the leftmost occurrence, or none iff the pattern does not occur |
| Strings.Split | src/ems/ui/static/assets/js/nav-helper.js:58 | at least one piece, and the whole text when the separator does not occur |
| Strings.JoinSplit | src/ems/ui/static/assets/js/profiles-new.js:1276 | joining the pieces of a split gives the text back |
| Strings.SplitJoin | src/ems/ui/static/assets/js/profiles-new.js:1276 | splitting the join of separator-free pieces gives the pieces back |
| Strings.SplitPiecesFree | src/ems/ui/static/assets/js/profiles-new.js:1276 | no piece of a split holds the separator |
| Strings.LastPieceIsSuffix | src/ems/ui/static/assets/js/nav-helper.js:58 | `split(...).pop()` is a suffix of the text |
| Strings.ReplaceFirst | src/ems/ui/static/assets/js/profiles-new.js:996 | text holding the pattern has its leftmost occurrence, and only that one, replaced by the replacement; text without it is unchanged |
| Strings.ReplaceChar | src/ems/utils/config.py:50 | after Python's `replace` the character is gone unless the replacement holds it; text without it is unchanged, and no new characters appear beyond the replacement's |
| Strings.TrimBy | src/ems/ui/static/assets/js/site-wizard.js:51 | the result is the text with its white-space ends removed: white space, then the result, then white space make up the text, and the result neither starts nor ends with white space; it is empty iff the text is all white space |
| Strings.TrimmedUnique | src/ems/ui/static/assets/js/site-wizard.js:51 | exactly one text is the input without its white-space ends |
| Strings.TrimByNoSpaceEnds | src/ems/ui/static/assets/js/site-wizard.js:51 | trimming text without white space at its ends changes nothing |
| Strings.JsTrim | src/ems/ui/static/assets/js/site-wizard.js:51 | JavaScript `trim()` with the full `\s` character set |
| Strings.PyStrip | scripts/csv_to_pointmap.py:123 | Python `strip()` with the `isspace()` character set |
| Strings.NatToString | src/ems/ui/static/ui.js:422 | a number's decimal text is non-empty and all digits |
| Strings.DecimalRoundTrip | src/ems/ui/static/ui.js:422 | reading back a written number gives the number |
| Strings.NatToStringInjective | src/ems/ui/static/ui.js:422 | distinct numbers are written differently |
| Strings.IntToString | src/ems/ui/static/ui.js:108 | a non-negative integer is written as digits whose value is the integer; a negative one as '-' followed by the digits of its magnitude |
| Common.IndexWhere | src/ems/ui/static/assets/js/profiles-new.js:1301 | `findIndex`: the first satisfying position, or none iff no element satisfies the test |
| Common.Filter | src/ems/ui/static/assets/js/settings-rbac.js:79 | `filter` keeps exactly the satisfying elements |
| Common.FilterAllKept | src/ems/ui/static/assets/js/settings-rbac.js:79 | a filter every element passes changes nothing |
| Common.FilterAppend | src/ems/ui/static/assets/js/settings-rbac.js:79 | filtering keeps the relative order |

## Findings

| source | as written | input that shows it | evidently intended | confidence | as-written member | corrected member |
|---|---|---|---|---|---|---|
| src/ems/ui/static/assets/js/enhanced-add-device.js:847-885 | `saveNewEnhancedDevice` reads id, plant, make and model from the `#deviceId`, `#plantId`, `#deviceMake` and `#deviceModel` inputs | any completed wizard: Save is shown only on the last step, 'Validation' (line 276), whose body is the summary and holds none of those inputs, so all four read `undefined` and the save is refused | build the configuration from the fields the 'Basic Information' step recorded in `deviceData` (lines 232-235) | high; not executed | EnhancedAddDevice.SaveFromLastStepRefused | EnhancedAddDevice.AddDeviceState.SaveRecordedDevice |
| src/ems/ui/static/ui.js:419-424 | `saveNewDevice` reads the name from `#devName` and the endpoint from `#host` | any run of the wizard: Save is shown only on step 6, 'Commissioning' (line 352), whose body (lines 394-395) is a checklist without either input, which exist only on 'Basics' (line 368) and 'Connection' (line 377); so 'Inverter A' typed on 'Basics' is saved as 'Inverter-1' with endpoint '' | keep the name and host typed on their steps and save those | high; not executed | UiDashboard.TypedNameLost | UiDashboard.AddModal.SaveRecordedDevice |

`EnhancedAddDevice.AddDeviceState.SaveNewDevice` models the save as written;
`EnhancedAddDevice.RecordedSaveAccepts` proves that the corrected save
accepts after a passing 'Basic Information' step and stores what was typed.
Likewise `UiDashboard.AddModal.SaveNewDevice` models the dashboard's save as
written, `UiDashboard.SaveFromLastStepIgnoresTyping` states the loss for
every input, and `UiDashboard.RecordedSaveKeepsTyping` proves that the
corrected flow (`RecordInputs`, then `SaveRecordedDevice`) stores the typed
name and host.

## Left out

- DOM rendering, HTML template strings, CSS class toggling, Leaflet maps,
  Chart.js, the SVG trend coordinates and the dark/light theme switch. Only
  the values these are built from are modelled.
- `fetch`/`fetchAPI`, `setTimeout`, `debounce` and the PDF, export and
  download helpers. They are I/O; fetched catalogues are parameters.
- `importProfile` and `testProfile` in both profile editors. They are mock
  stubs driven by timers.
- `Math.random()` and `Date.now()`. These are the probe hits, breaker states,
  key suffixes, expiry dates, alert clock readings and profile ids; each is
  an input parameter.
- Floating point. Coordinates, capacities, samples and scales are `real`.
  `parseFloat` is a parameter (`None` standing for NaN), and float rounding
  is not modelled. Because of that, a missing length or scale column gives
  two registers and scale 1.0 only under the hypothesis that `parseFloat`
  reads '2' and '1.0' as those numbers (CsvPointmap.AbsentColumnsGiveDefaults).
  A blank cell gets those defaults without `parseFloat`.
- Discovery.AutoHintEndian: the plausibility test of each byte order is an input, because `parseFloat32` reinterprets bytes as an IEEE-754 float.
- The fleet averages in ui.js, and the random generation and PR columns of
  `filterSites`.
- Strings.Lower: case mapping covers the Latin letters (ASCII, Latin-1 and Latin Extended-A, which hold every Turkish capital, with 'İ' lowered to 'i' and a combining dot above). Capitals of other scripts, such as Greek or Cyrillic, keep their case here, because the full Unicode case tables are out of scope.
- AlertsCenter.FilterAlertsMembership: the search lowercases through Strings.Lower, so a Greek or Cyrillic capital in a device name or message is not matched by its small letter as JavaScript would.
- AlertsCenter.AlertTable.Filtered: the same non-Latin case gap as FilterAlertsMembership.
- UiDashboard.Matching: the same non-Latin case gap in the site-name search.
- UiDashboard.FilterSites: the same non-Latin case gap, through Matching.
- ProfilesEditor.ListedProfiles: the same non-Latin case gap in the name and description search.
- CsvPointmap.CategoryOf: the same non-Latin case gap for descriptions; Turkish descriptions such as 'GÜÇ' are lowered as Python does.
- SiteWizard.Slug: the same non-Latin case gap. Only [a-z0-9] survive the slug, so a non-Latin capital becomes a dash either way; the one exception is the Kelvin sign (U+212A), which JavaScript lowers to 'k' and the model drops.
- SiteWizard.SiteId: inherits Slug's case gap, which matters only for the Kelvin sign.
- Strings.UpperChar, Config.Title: title case covers ASCII only. Python's `title()` on the device-type names, which are ASCII, gives the same answer.
- Config.PyInt: `int()` is modelled on ASCII digits, because Python also accepts other Unicode decimal digits.
- CsvPointmap.IsAlnum: `str.isalnum()` beyond ASCII is a caller-supplied character class, for the same reason.
- JavaScript prototype keys are not modelled. For example, `pageNames['constructor']` finds an inherited function. Lookups here see only the literal table keys.
- `JSON.parse`/`JSON.stringify` deep copies. Values are immutable, so a
  copy is the value itself.
- Storage that fails to parse is modelled only in `filterSites` (where
  the stored sites become none).
- CSV file reading and the `csv.DictReader` quoting rules. Rows are given
  as maps from column name to cell text.
- The encoding-fallback branch of scripts/csv_to_pointmap.py:186-191. It
  re-reads the file and processes no rows. A byte that is not UTF-8 in the
  block `f.read(1024)` decodes makes that read raise before `sample` is
  bound, so the handler's `sample.count` raises UnboundLocalError. A bad
  byte further on ends the row loop, and the function returns the points
  of the rows read before it. The model takes the rows as already decoded
  text and captures neither outcome.
- `write_pointmap_yaml`, and the YAML parsing behind `validatePointMap`.
  The parsed document is the input.
- CsvPointmap.ParseRow: a cell that `float()` rejects makes Python raise ValueError, which the loop catches, skipping the row with a warning; the model rejects the row the same way, without the warning text.
- The point-preview formatting beyond the line count, and the per-category
  preview truncation of `generate_profile_js_entry`. Only the
  categorisation is modelled.
- The contents of the built-in profile catalogues (`getDefaultProfiles`,
  the `window.driverProfiles` seed). The catalogue is a constructor
  argument.
- EnhancedAddDevice.Configuration: the connection block, capabilities, poll interval and timestamp of `collectDeviceConfiguration` are left out; only the fields the save checks and records are modelled.
- SiteWizard.WizardState: `saveDraft`/`loadDraft` (a JSON round trip through storage), `renderBreakers`, `computeSummary` and the Leaflet marker sync are left out, because they only render or persist.
- SiteWizard.EmailMatches, SiteWizard.PhoneMatches: the two regular expressions are written out as predicates rather than compiled from the regex text.
- UiDashboard.HostOnPage: for a type outside the seven add buttons, the 'Connection' step leaves the previous step's body in place; the buttons never open the modal with another type, so that body is not modelled and `#host` reads as missing there.
- Automation.AutoState.SelectBreaker: `renderMeasures` also redraws the measurement grid from random readings, and the timer also redraws the bus bars; only the trend sample is modelled, with its random value as an input.
- UiDashboard.MakeBadge: the `<span>` markup is built, but no property is stated about it beyond the style choice in `BadgeStyle`.
- Overrides: only the key-value storage behaviour of `localStorage` is modelled. Quota errors and JSON text are not.
- Config.ApplyEnvOverrides: the cursor walk is modelled on values (`SetPath`), so aliasing between nested mappings is not captured. `os.environ` is an ordered list of pairs.
- The rest of the repository: the FastAPI app, the device and audit
  endpoints, the Modbus I/O layer, the network and settings pages, and the
  hardware test script. None of it is part of this model.
