/**
 * The new-site wizard (site-wizard.js): the global wizard `state` as a
 * class, its seven 1-based steps (Next runs the current step's check, Back
 * never does, the step labels jump anywhere unchecked), the basics,
 * location and capacity checks with what each writes, the discovery gate,
 * and the site record appended under a slug id.
 *
 * Form values are parameters. `parseFloat`/`parseInt` results are
 * `Option` values, `None` for NaN (and, for the coordinates, for an
 * infinite value, which `Number.isFinite` rejects).
 */
module SiteWizard {

  import opened Common
  import opened Strings

  /** The step titles, numbered from 1. */
  const StepTitles: seq<string> := ["Basics", "Location", "Capacity", "Discovery", "Automation", "Grid & Tariff", "Summary"]

  /** The number of the last step. */
  const LastStep := 7

  datatype Contact = Contact(name: string, email: string, phone: string)
  datatype Basics = Basics(name: string, code: Option<string>, kind: string, operator: Option<string>, contact: Option<Contact>)
  datatype Location = Location(lat: real, lng: real, country: Option<string>, city: Option<string>, address: Option<string>, timezone: string)
  datatype Bess = Bess(totalKWh: real, totalKW: real)
  datatype Capacity = Capacity(
    dcMWp: Option<real>, acMVA: Option<real>, topology: string,
    inverterCount: Option<int>, hasBESS: bool, bess: Option<Bess>)

  /** A discovered device as the discovery gate sees it. */
  datatype Discovered = Discovered(id: string, kind: string, status: string)

  /** The raw inputs of each checked step. */
  datatype BasicsForm = BasicsForm(
    siteName: string, contactEmail: string, contactPhone: string,
    siteCode: string, siteType: string, operator: string, contactName: string)
  datatype LocationForm = LocationForm(lat: Option<real>, lng: Option<real>, country: string, city: string, address: string, timezone: string)
  datatype CapacityForm = CapacityForm(
    hasBESS: string, dcMWp: Option<real>, acMVA: Option<real>, topology: string,
    inverterCount: Option<int>, bessKWh: Option<real>, bessKW: Option<real>)

  /** A site record in `localStorage['emsSites']`. */
  datatype Site = Site(id: string, name: string, lat: real, lng: real, status: string, capacity: real, soc: Option<int>)

  /** `goStep(n)`: numbers outside 1..7 are ignored. */
  function GoStep(step: int, n: int): (r: int)
    ensures 1 <= n <= LastStep ==> r == n
    ensures !(1 <= n <= LastStep) ==> r == step
  {
    if n < 1 || n > LastStep then step else n
  }

  /** A character neither '@' nor whitespace: `[^@\s]`. */
  predicate MailChar(c: char)
  {
    c != '@' && !IsJsSpace(c)
  }

  /** `/^[^@\s]+@[^@\s]+\.[^@\s]+$/`: one '@' with text before it, and a dot after it with text on both sides, no whitespace. */
  predicate EmailMatches(e: string)
  {
    exists at, dot :: 0 < at && at + 1 < dot && dot + 1 < |e| && e[at] == '@' && e[dot] == '.'
      && (forall k :: 0 <= k < |e| && k != at ==> MailChar(e[k]))
  }

  /** `[0-9\-\s]`. */
  predicate PhoneChar(c: char)
  {
    IsAsciiDigit(c) || c == '-' || IsJsSpace(c)
  }

  /** `/^\+?[0-9\-\s]{7,15}$/`: an optional leading '+', then 7 to 15 digits, dashes or spaces. */
  predicate PhoneMatches(p: string)
  {
    var body := if |p| > 0 && p[0] == '+' then p[1..] else p;
    7 <= |body| <= 15 && forall k :: 0 <= k < |body| ==> PhoneChar(body[k])
  }

  /** Whether `validateBasics` accepts the form. */
  predicate BasicsAccepted(form: BasicsForm)
  {
    var name := JsTrim(form.siteName);
    var email := JsTrim(form.contactEmail);
    var phone := JsTrim(form.contactPhone);
    name != "" && Lower(name) != "existing site"
    && (email == "" || EmailMatches(email))
    && (phone == "" || PhoneMatches(phone))
  }

  /** The basics `validateBasics` records on acceptance, every text trimmed. */
  function AcceptedBasics(form: BasicsForm): (b: Basics)
    ensures b.name == JsTrim(form.siteName) && b.code == Some(JsTrim(form.siteCode)) && b.kind == form.siteType
    ensures b.operator == Some(JsTrim(form.operator))
    ensures b.contact == Some(Contact(JsTrim(form.contactName), JsTrim(form.contactEmail), JsTrim(form.contactPhone)))
  {
    Basics(JsTrim(form.siteName), Some(JsTrim(form.siteCode)), form.siteType, Some(JsTrim(form.operator)),
           Some(Contact(JsTrim(form.contactName), JsTrim(form.contactEmail), JsTrim(form.contactPhone))))
  }

  /** Whether `validateLocation` accepts the coordinates. */
  predicate LocationAccepted(form: LocationForm)
  {
    form.lat.Some? && form.lng.Some?
    && -90.0 <= form.lat.value <= 90.0 && -180.0 <= form.lng.value <= 180.0
  }

  /** The location recorded on acceptance: an empty time zone becomes 'UTC'. */
  function AcceptedLocation(form: LocationForm): (l: Location)
    requires LocationAccepted(form)
    ensures l.lat == form.lat.value && l.lng == form.lng.value
    ensures l.country == Some(JsTrim(form.country)) && l.city == Some(JsTrim(form.city)) && l.address == Some(JsTrim(form.address))
    ensures JsTrim(form.timezone) == "" ==> l.timezone == "UTC"
    ensures JsTrim(form.timezone) != "" ==> l.timezone == JsTrim(form.timezone)
  {
    var tz := JsTrim(form.timezone);
    Location(form.lat.value, form.lng.value, Some(JsTrim(form.country)), Some(JsTrim(form.city)),
             Some(JsTrim(form.address)), if tz != "" then tz else "UTC")
  }

  /** `parseFloat(x) || 0`: NaN becomes 0. */
  function OrZero(x: Option<real>): (r: real)
    ensures x.Some? ==> r == x.value
    ensures x.None? ==> r == 0.0
  {
    if x.Some? then x.value else 0.0
  }

  /** The capacity `validateCapacity` writes, pass or fail; the battery figures only when a battery is declared. */
  function WrittenCapacity(old_: Capacity, form: CapacityForm): (c: Capacity)
    ensures c.hasBESS <==> form.hasBESS == "yes"
    ensures c.dcMWp == Some(OrZero(form.dcMWp)) && c.acMVA == Some(OrZero(form.acMVA))
    ensures c.inverterCount == form.inverterCount && c.topology == form.topology
    ensures c.hasBESS ==> c.bess == Some(Bess(OrZero(form.bessKWh), OrZero(form.bessKW)))
    ensures !c.hasBESS ==> c.bess == old_.bess
  {
    var hasBESS := form.hasBESS == "yes";
    Capacity(Some(OrZero(form.dcMWp)), Some(OrZero(form.acMVA)), form.topology, form.inverterCount, hasBESS,
             if hasBESS then Some(Bess(OrZero(form.bessKWh), OrZero(form.bessKW))) else old_.bess)
  }

  /** Whether `validateCapacity` passes: a positive inverter count (NaN fails). */
  predicate CapacityPasses(form: CapacityForm)
  {
    form.inverterCount.Some? && form.inverterCount.value > 0
  }

  /** An online device of the kind was discovered. */
  predicate OnlineOfKind(discovered: seq<Discovered>, kind: string)
  {
    exists k :: 0 <= k < |discovered| && discovered[k].kind == kind && discovered[k].status == "online"
  }

  /** `canProceedDiscovery`: an online inverter when inverters are expected, and an online BMS when a battery is declared. */
  predicate DiscoveryReady(c: Capacity, discovered: seq<Discovered>)
  {
    (c.inverterCount.Some? && c.inverterCount.value > 0 ==> OnlineOfKind(discovered, "inverter"))
    && (c.hasBESS ==> OnlineOfKind(discovered, "bms"))
  }

  /** The fixed result of the mock `discoverDevices`, whatever the range and protocol. */
  function DiscoverDevices(): (rows: seq<Discovered>)
    ensures OnlineOfKind(rows, "inverter") && OnlineOfKind(rows, "bms")
  {
    var rows := [Discovered("inv-1", "inverter", "online"), Discovered("bms-1", "bms", "online")];
    assert rows[0].kind == "inverter" && rows[0].status == "online";
    assert rows[1].kind == "bms" && rows[1].status == "online";
    rows
  }

  /** After a discovery run the discovery step always lets Next through, whatever the capacity says. */
  lemma DiscoveryAlwaysReady(c: Capacity)
    ensures DiscoveryReady(c, DiscoverDevices())
  {
  }

  /** A character the slug keeps: `[a-z0-9]`. */
  predicate SlugChar(c: char)
  {
    IsAsciiLower(c) || IsAsciiDigit(c)
  }

  /** No two dashes in a row. */
  predicate NoDoubleDash(s: string)
  {
    forall k :: 0 <= k < |s| - 1 ==> !(s[k] == '-' && s[k + 1] == '-')
  }

  /** What one more character adds to the slug text: itself, a dash opening a run of other characters, or nothing inside such a run. */
  function DashFor(s: string, c: char): string
  {
    if SlugChar(c) then [c]
    else if |s| > 0 && !SlugChar(s[|s| - 1]) then ""
    else "-"
  }

  /** `replace(/[^a-z0-9]+/g, '-')`: every run of other characters becomes one dash. */
  function Dashed(s: string): string
  {
    if |s| == 0 then []
    else
      var init := s[..|s| - 1];
      Dashed(init) + DashFor(init, s[|s| - 1])
  }

  /** The slug text holds only slug characters and single dashes, and ends in a dash exactly when the text ends in another character. */
  lemma {:induction false} DashedShape(s: string)
    ensures var r := Dashed(s);
      (forall k :: 0 <= k < |r| ==> SlugChar(r[k]) || r[k] == '-')
      && NoDoubleDash(r)
      && (|r| > 0 && r[|r| - 1] == '-' <==> |s| > 0 && !SlugChar(s[|s| - 1]))
      && (|r| == 0 <==> |s| == 0)
  {
    if |s| > 0 {
      var init := s[..|s| - 1];
      DashedShape(init);
    }
  }

  /** One more character at the end adds what `DashFor` says. */
  lemma DashedSnoc(s: string, c: char)
    ensures Dashed(s + [c]) == Dashed(s) + DashFor(s, c)
  {
    var t := s + [c];
    assert t[..|t| - 1] == s && t[|t| - 1] == c;
  }

  /** `replace(/(^-|-$)/g, '')`: one leading and one trailing dash removed. */
  function DropEdgeDashes(d: string): (r: string)
    requires NoDoubleDash(d)
    ensures |r| > 0 ==> r[0] != '-' && r[|r| - 1] != '-'
    ensures d == r || d == "-" + r || d == r + "-" || d == "-" + r + "-"
    ensures NoDoubleDash(r)
  {
    var a := if |d| > 0 && d[0] == '-' then d[1..] else d;
    assert d == a || d == "-" + a;
    if |a| > 0 && a[|a| - 1] == '-' then
      assert a == a[..|a| - 1] + "-";
      a[..|a| - 1]
    else a
  }

  /** The slug text of a run of characters that are not slug characters is one dash. */
  lemma {:induction false} DashedRun(run: string)
    requires |run| > 0 && forall k :: 0 <= k < |run| ==> !SlugChar(run[k])
    ensures Dashed(run) == "-"
  {
    var init := run[..|run| - 1];
    assert run == init + [run[|run| - 1]];
    DashedSnoc(init, run[|run| - 1]);
    if |init| > 0 {
      DashedRun(init);
    }
  }

  /**
   * Cutting a text where a slug character meets the cut, on either side,
   * cuts its slug text there too: the slug characters are kept in order and
   * only the runs of other characters are folded into single dashes.
   */
  lemma {:induction false} DashedAppend(a: string, b: string)
    requires (|a| > 0 && SlugChar(a[|a| - 1])) || (|b| > 0 && SlugChar(b[0]))
    ensures Dashed(a + b) == Dashed(a) + Dashed(b)
    decreases |b|
  {
    if |b| == 0 {
      assert a + b == a;
    } else {
      var init := b[..|b| - 1];
      var c := b[|b| - 1];
      assert b == init + [c];
      assert a + b == (a + init) + [c];
      DashedSnoc(a + init, c);
      DashedSnoc(init, c);
      if |init| == 0 {
        assert a + init == a;
      } else {
        DashedAppendInner(a, init, c);
      }
    }
  }

  /** The inductive step of `DashedAppend` when the cut part has more than one character. */
  lemma {:induction false} DashedAppendInner(a: string, init: string, c: char)
    requires |init| > 0
    requires (|a| > 0 && SlugChar(a[|a| - 1])) || SlugChar(init[0])
    ensures Dashed(a + init) + DashFor(a + init, c) == Dashed(a) + (Dashed(init) + DashFor(init, c))
    decreases |init| + 1, 0
  {
    assert Dashed(a + init) == Dashed(a) + Dashed(init) by {
      DashedAppend(a, init);
    }
    assert DashFor(a + init, c) == DashFor(init, c) by {
      assert (a + init)[|a + init| - 1] == init[|init| - 1];
    }
  }

  /** The site id made from a text: lowercased, runs of other characters as single dashes, no dash at either end. */
  function Slug(text: string): (id: string)
    ensures IsSlug(id)
  {
    DashedShape(Lower(text));
    DropEdgeDashes(Dashed(Lower(text)))
  }

  /**
   * Two words of slug characters joined by a run of other characters that
   * lowering leaves alone give the two words joined by one dash.
   */
  lemma SlugOfWords(w1: string, sep: string, w2: string)
    requires |w1| > 0 && |w2| > 0 && |sep| > 0
    requires forall k :: 0 <= k < |w1| ==> SlugChar(w1[k])
    requires forall k :: 0 <= k < |w2| ==> SlugChar(w2[k])
    requires forall k :: 0 <= k < |sep| ==> !SlugChar(sep[k]) && !IsUpper(sep[k])
    ensures Slug(w1 + sep + w2) == w1 + "-" + w2
  {
    var t := w1 + sep + w2;
    LoweredWords(w1, sep, w2);
    DashedWords(w1, sep, w2);
    var d := w1 + "-" + w2;
    assert d[0] == w1[0] && d[|d| - 1] == w2[|w2| - 1];
    assert Slug(t) == DropEdgeDashes(d);
  }

  /** Words of slug characters and a separator without capitals are already lowercase. */
  lemma LoweredWords(w1: string, sep: string, w2: string)
    requires forall k :: 0 <= k < |w1| ==> SlugChar(w1[k])
    requires forall k :: 0 <= k < |w2| ==> SlugChar(w2[k])
    requires forall k :: 0 <= k < |sep| ==> !IsUpper(sep[k])
    ensures Lower(w1 + sep + w2) == w1 + sep + w2
  {
    var t := w1 + sep + w2;
    assert forall k :: 0 <= k < |t| ==> !IsUpper(t[k]);
    LowerWithoutCapitals(t);
  }

  /** Two words of slug characters around a run of other characters: the run becomes one dash. */
  lemma DashedWords(w1: string, sep: string, w2: string)
    requires |w1| > 0 && |w2| > 0 && |sep| > 0
    requires forall k :: 0 <= k < |w1| ==> SlugChar(w1[k])
    requires forall k :: 0 <= k < |w2| ==> SlugChar(w2[k])
    requires forall k :: 0 <= k < |sep| ==> !SlugChar(sep[k])
    ensures Dashed(w1 + sep + w2) == w1 + "-" + w2
  {
    assert Dashed(w1 + sep + w2) == Dashed(w1 + sep) + Dashed(w2) by {
      DashedAppend(w1 + sep, w2);
    }
    assert Dashed(w1 + sep) == Dashed(w1) + Dashed(sep) by {
      DashedAppend(w1, sep);
    }
    DashedRun(sep);
    DashedKeepsSlugText(w1);
    DashedKeepsSlugText(w2);
  }

  /** The slug of a text is the slug of its lowercase form. */
  lemma SlugOfLowered(text: string)
    ensures Slug(Lower(text)) == Slug(text)
  {
    LowerIdempotent(text);
  }

  /** 'İ' lowers to 'i' and a combining dot above, so 'İ' before a word gives 'i-' and the word: 'İzmir' has the id 'i-zmir'. */
  lemma DottedCapitalSlug(rest: string)
    requires |rest| > 0 && forall k :: 0 <= k < |rest| ==> SlugChar(rest[k])
    ensures Slug(['\U{0130}'] + rest) == ['i', '-'] + rest
  {
    LowerDottedWord(rest);
    SlugThroughLower(['\U{0130}'] + rest, ['i', '\U{0307}'] + rest);
    SlugOfDottedWord(rest);
  }

  lemma LowerDottedWord(rest: string)
    requires forall k :: 0 <= k < |rest| ==> SlugChar(rest[k])
    ensures Lower(['\U{0130}'] + rest) == ['i', '\U{0307}'] + rest
  {
    assert Lower(rest) == rest by {
      SlugTextLowered(rest);
    }
    LowerDottedCapital(rest);
  }

  /** Slug characters have no capitals to lower. */
  lemma SlugTextLowered(s: string)
    requires forall k :: 0 <= k < |s| ==> SlugChar(s[k])
    ensures Lower(s) == s
  {
    assert forall k :: 0 <= k < |s| ==> !IsUpper(s[k]);
    LowerWithoutCapitals(s);
  }

  /** Texts with the same lowered form have the same id. */
  lemma SlugThroughLower(text: string, lowered: string)
    requires Lower(text) == lowered
    ensures Slug(text) == Slug(lowered)
  {
    SlugOfLowered(text);
  }

  lemma SlugOfDottedWord(rest: string)
    requires |rest| > 0 && forall k :: 0 <= k < |rest| ==> SlugChar(rest[k])
    ensures Slug(['i', '\U{0307}'] + rest) == ['i', '-'] + rest
  {
    CombiningDotAbove();
    SlugOfMarkedLetter('i', '\U{0307}', rest);
  }

  /** A slug letter, one other lowercase character and a word give the letter, a dash and the word. */
  lemma SlugOfMarkedLetter(c: char, mark: char, rest: string)
    requires SlugChar(c) && !SlugChar(mark) && !IsUpper(mark)
    requires |rest| > 0 && forall k :: 0 <= k < |rest| ==> SlugChar(rest[k])
    ensures Slug([c, mark] + rest) == [c, '-'] + rest
  {
    var w1, sep := [c], [mark];
    SlugOfWords(w1, sep, rest);
    assert w1 + sep + rest == [c, mark] + rest;
    assert w1 + "-" + rest == [c, '-'] + rest;
  }

  /** The combining dot above is neither a slug character nor a capital. */
  lemma CombiningDotAbove()
    ensures !SlugChar('\U{0307}') && !IsUpper('\U{0307}')
  {
  }

  /** A text of slug characters with single inner dashes is its own slug. */
  predicate IsSlug(s: string)
  {
    (forall k :: 0 <= k < |s| ==> SlugChar(s[k]) || s[k] == '-')
    && NoDoubleDash(s) && (|s| > 0 ==> s[0] != '-' && s[|s| - 1] != '-')
  }

  lemma {:induction false} DashedKeepsSlugText(s: string)
    requires forall k :: 0 <= k < |s| ==> SlugChar(s[k]) || s[k] == '-'
    requires NoDoubleDash(s)
    ensures Dashed(s) == s
  {
    if |s| > 0 {
      var init := s[..|s| - 1];
      assert NoDoubleDash(init) by {
        forall k | 0 <= k < |init| - 1 ensures !(init[k] == '-' && init[k + 1] == '-') {
          assert init[k] == s[k] && init[k + 1] == s[k + 1];
        }
      }
      DashedKeepsSlugText(init);
      assert init + [s[|s| - 1]] == s;
    }
  }

  /** Making a slug twice changes nothing. */
  lemma SlugIdempotent(text: string)
    ensures Slug(Slug(text)) == Slug(text)
  {
    SlugOfSlug(Slug(text));
  }

  /** A slug is its own slug. */
  lemma SlugOfSlug(id: string)
    requires IsSlug(id)
    ensures Slug(id) == id
  {
    LowerWithoutCapitals(id);
    DashedKeepsSlugText(id);
  }

  /** The id `provisionSite` gives: the slug of the code, else of the name, else of 'site'. */
  function SiteId(b: Basics): (id: string)
    ensures IsSlug(id)
    ensures b.code.Some? && b.code.value != "" ==> id == Slug(b.code.value)
    ensures (b.code.None? || b.code.value == "") && b.name != "" ==> id == Slug(b.name)
  {
    var source := if b.code.Some? && b.code.value != "" then b.code.value else if b.name != "" then b.name else "site";
    Slug(source)
  }

  /** A site provisioned without any name or code gets the id 'site'. */
  lemma UnnamedSiteId(b: Basics)
    requires b.name == "" && (b.code.None? || b.code.value == "")
    ensures SiteId(b) == "site"
  {
    SiteWordIsSlug("site");
    SlugOfSlug("site");
  }

  lemma SiteWordIsSlug(w: string)
    requires w == "site"
    ensures IsSlug(w)
  {
    assert forall k :: 0 <= k < |w| ==> SlugChar(w[k]);
  }

  /** `x || fallback` for a number: zero and NaN fall back. */
  function OrElse(x: Option<real>, fallback: real): real
  {
    if x.Some? && x.value != 0.0 then x.value else fallback
  }

  /** The record `provisionSite` appends. */
  function NewSite(b: Basics, l: Location, c: Capacity): (s: Site)
    ensures s.id == SiteId(b) && s.name == b.name && s.status == "online"
    ensures s.lat == (if l.lat != 0.0 then l.lat else 39.9) && s.lng == (if l.lng != 0.0 then l.lng else 32.85)
    ensures s.soc.Some? <==> c.hasBESS && c.bess.Some?
    ensures c.acMVA.Some? && c.acMVA.value != 0.0 ==> s.capacity == c.acMVA.value
    ensures !(c.acMVA.Some? && c.acMVA.value != 0.0) && c.dcMWp.Some? && c.dcMWp.value != 0.0 ==> s.capacity == c.dcMWp.value
    ensures !(c.acMVA.Some? && c.acMVA.value != 0.0) && !(c.dcMWp.Some? && c.dcMWp.value != 0.0) ==> s.capacity == 0.0
  {
    Site(SiteId(b), b.name, if l.lat != 0.0 then l.lat else 39.9, if l.lng != 0.0 then l.lng else 32.85,
         "online", OrElse(c.acMVA, OrElse(c.dcMWp, 0.0)),
         if c.hasBESS && c.bess.Some? then Some(65) else None)
  }

  /** Whether Next lets the wizard leave `step`: steps 1-4 run their check, the others always pass. */
  predicate StepPasses(step: int, bf: BasicsForm, lf: LocationForm, cf: CapacityForm, c: Capacity, discovered: seq<Discovered>)
  {
    if step == 1 then BasicsAccepted(bf)
    else if step == 2 then LocationAccepted(lf)
    else if step == 3 then CapacityPasses(cf)
    else if step == 4 then DiscoveryReady(c, discovered)
    else true
  }

  class WizardState {
    var step: int
    var basics: Basics
    var location: Location
    var capacity: Capacity
    var discovered: seq<Discovered>
    /** `localStorage['emsSites']`. */
    var sites: seq<Site>

    /** The wizard is always on one of its seven steps: the constructor starts it there and every step change keeps it there. */
    predicate Valid()
      reads this
    {
      1 <= step <= LastStep
    }

    constructor (stored: seq<Site>)
      ensures Valid() && step == 1 && basics == Basics("", None, "PV", None, None)
      ensures location == Location(0.0, 0.0, None, None, None, "UTC")
      ensures capacity == Capacity(None, None, "PV_INV_BUS_TX_GRID", Some(0), false, None)
      ensures discovered == [] && sites == stored
    {
      step := 1;
      basics := Basics("", None, "PV", None, None);
      location := Location(0.0, 0.0, None, None, None, "UTC");
      capacity := Capacity(None, None, "PV_INV_BUS_TX_GRID", Some(0), false, None);
      discovered := [];
      sites := stored;
    }

    /** `goStep`. */
    method Go(n: int)
      requires Valid()
      modifies this
      ensures Valid()
      ensures step == GoStep(old(step), n)
      ensures basics == old(basics) && location == old(location) && capacity == old(capacity)
      ensures discovered == old(discovered) && sites == old(sites)
    {
      if n < 1 || n > LastStep {
        return;
      }
      step := n;
    }

    /** `validateBasics`: the basics are written only on acceptance. */
    method ValidateBasics(form: BasicsForm) returns (ok: bool)
      modifies this
      ensures ok == BasicsAccepted(form)
      ensures basics == if ok then AcceptedBasics(form) else old(basics)
      ensures step == old(step) && location == old(location) && capacity == old(capacity)
      ensures discovered == old(discovered) && sites == old(sites)
    {
      ok := BasicsAccepted(form);
      if ok {
        basics := AcceptedBasics(form);
      }
    }

    /** `validateLocation`: the location is written only on acceptance. */
    method ValidateLocation(form: LocationForm) returns (ok: bool)
      modifies this
      ensures ok == LocationAccepted(form)
      ensures ok ==> location == AcceptedLocation(form)
      ensures !ok ==> location == old(location)
      ensures step == old(step) && basics == old(basics) && capacity == old(capacity)
      ensures discovered == old(discovered) && sites == old(sites)
    {
      ok := LocationAccepted(form);
      if ok {
        location := AcceptedLocation(form);
      }
    }

    /** `validateCapacity`: the capacity fields are written even when the check fails. */
    method ValidateCapacity(form: CapacityForm) returns (ok: bool)
      modifies this
      ensures ok == CapacityPasses(form)
      ensures capacity == WrittenCapacity(old(capacity), form)
      ensures step == old(step) && basics == old(basics) && location == old(location)
      ensures discovered == old(discovered) && sites == old(sites)
    {
      capacity := WrittenCapacity(capacity, form);
      ok := capacity.inverterCount.Some? && capacity.inverterCount.value > 0;
    }

    /** The Next handler: the current step's check, then `goStep(step + 1)`, which refuses to leave the last step. */
    method NextPressed(bf: BasicsForm, lf: LocationForm, cf: CapacityForm)
      requires Valid()
      modifies this
      ensures Valid()
      ensures var passed := StepPasses(old(step), bf, lf, cf, old(capacity), old(discovered));
        step == if passed then GoStep(old(step), old(step) + 1) else old(step)
      ensures old(step) == LastStep ==> step == LastStep
      ensures basics == if old(step) == 1 && BasicsAccepted(bf) then AcceptedBasics(bf) else old(basics)
      ensures capacity == if old(step) == 3 then WrittenCapacity(old(capacity), cf) else old(capacity)
      ensures old(step) == 2 && LocationAccepted(lf) ==> location == AcceptedLocation(lf)
      ensures !(old(step) == 2 && LocationAccepted(lf)) ==> location == old(location)
      ensures discovered == old(discovered) && sites == old(sites)
    {
      var ok := true;
      if step == 1 {
        ok := ValidateBasics(bf);
      } else if step == 2 {
        ok := ValidateLocation(lf);
      } else if step == 3 {
        ok := ValidateCapacity(cf);
      } else if step == 4 {
        ok := DiscoveryReady(capacity, discovered);
      }
      if ok {
        Go(step + 1);
      }
    }

    /** The Back handler: one step back from any step after the first; nothing is checked. */
    method BackPressed()
      requires Valid()
      modifies this
      ensures Valid()
      ensures step == if old(step) > 1 then GoStep(old(step), old(step) - 1) else old(step)
      ensures basics == old(basics) && location == old(location) && capacity == old(capacity)
      ensures discovered == old(discovered) && sites == old(sites)
    {
      if step > 1 {
        Go(step - 1);
      }
    }

    /** A step label: jumps to its step with no check at all. */
    method LabelClicked(n: int)
      requires 1 <= n <= LastStep
      requires Valid()
      modifies this
      ensures Valid()
      ensures step == n
      ensures basics == old(basics) && location == old(location) && capacity == old(capacity)
      ensures discovered == old(discovered) && sites == old(sites)
    {
      Go(n);
    }

    /** The discover button: the mock result replaces the discovered list. */
    method DiscoverClicked()
      modifies this
      ensures discovered == DiscoverDevices()
      ensures step == old(step) && basics == old(basics) && location == old(location) && capacity == old(capacity)
      ensures sites == old(sites)
    {
      discovered := DiscoverDevices();
    }

    /** `provisionSite`: exactly one site is appended. */
    method ProvisionSite()
      modifies this
      ensures sites == old(sites) + [NewSite(basics, location, capacity)]
      ensures step == old(step) && basics == old(basics) && location == old(location) && capacity == old(capacity)
      ensures discovered == old(discovered)
    {
      sites := sites + [NewSite(basics, location, capacity)];
    }
  }

  /** Within the seven steps, Next and Back keep the wizard within them. */
  lemma StepsStayInRange(step: int, passed: bool)
    requires 1 <= step <= LastStep
    ensures var next := if passed then GoStep(step, step + 1) else step;
      1 <= next <= LastStep && next - step <= 1
    ensures var back := if step > 1 then GoStep(step, step - 1) else step;
      1 <= back <= LastStep && step - back <= 1
  {
  }
}
