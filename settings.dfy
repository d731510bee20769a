/**
 * The settings page (src/pages/Settings.tsx): a two-level settings object
 * (category, then key, then value) updated one value at a time, the labels the
 * toggle rows derive from camelCase keys, the appearance toggles that leave out the
 * theme, and the dispatch from the active tab to the panel it shows.
 */
module Settings {
  import opened Collections
  import opened Text
  import opened Records

  /** A setting holds a checkbox state or a text/select value. */
  datatype Value = Flag(on: bool) | Choice(text: string)

  type Category = Record<Value>

  type SettingsObject = Record<Category>

  /** The categories the page starts with, which are also its tab ids. */
  const CategoryNames: seq<string> := ["profile", "notifications", "security", "appearance", "data"]

  /** The object the page starts with: the five categories in the order they are written. */
  const InitialSettings: SettingsObject :=
    [ Entry("profile", ProfileDefaults),
      Entry("notifications", NotificationDefaults),
      Entry("security", SecurityDefaults),
      Entry("appearance", AppearanceDefaults),
      Entry("data", DataDefaults) ]

  const ProfileDefaults: Category :=
    [ Entry("name", Choice("John Doe")),
      Entry("email", Choice("john.doe@company.com")),
      Entry("phone", Choice("+1 (555) 123-4567")),
      Entry("timezone", Choice("America/New_York")),
      Entry("language", Choice("en")) ]

  const NotificationDefaults: Category :=
    [ Entry("emailNotifications", Flag(true)),
      Entry("pushNotifications", Flag(true)),
      Entry("weeklyReports", Flag(true)),
      Entry("marketingEmails", Flag(false)),
      Entry("securityAlerts", Flag(true)) ]

  const SecurityDefaults: Category :=
    [ Entry("twoFactorAuth", Flag(false)),
      Entry("sessionTimeout", Choice("30")),
      Entry("passwordExpiry", Choice("90")) ]

  const AppearanceDefaults: Category :=
    [ Entry("theme", Choice("dark")),
      Entry("sidebarCollapsed", Flag(false)),
      Entry("compactMode", Flag(false)),
      Entry("animations", Flag(true)) ]

  const DataDefaults: Category :=
    [ Entry("dataRetention", Choice("365")),
      Entry("autoBackup", Flag(true)),
      Entry("exportFormat", Choice("json")) ]

  /**
   * Keys are unique at both levels and every category of the initial object is
   * present; `updateSetting` never removes a category.
   */
  predicate WellFormed(s: SettingsObject) {
    && UniqueKeys(s)
    && (forall i :: 0 <= i < |s| ==> UniqueKeys(s[i].value))
    && (forall i :: 0 <= i < |CategoryNames| ==> HasKey(s, CategoryNames[i]))
  }

  /** `prev[category]`, where spreading a missing category contributes nothing. */
  function CategoryOf(s: SettingsObject, category: string): Category {
    match Lookup(s, category)
    case Some(c) => c
    case None => []
  }

  /** `settings[category][key]`. */
  function Get(s: SettingsObject, category: string, key: string): Option<Value> {
    match Lookup(s, category)
    case Some(c) => Lookup(c, key)
    case None => None
  }

  /** `updateSetting(category, key, value)`: `{...prev, [category]: {...prev[category], [key]: value}}`. */
  function Updated(s: SettingsObject, category: string, key: string, value: Value): SettingsObject {
    Put(s, category, Put(CategoryOf(s, category), key, value))
  }

  /** After the update, the setting reads as the value just written. */
  lemma UpdateThenGet(s: SettingsObject, category: string, key: string, value: Value)
    ensures Get(Updated(s, category, key, value), category, key) == Some(value)
  {
    PutLookupSame(s, category, Put(CategoryOf(s, category), key, value));
    PutLookupSame(CategoryOf(s, category), key, value);
  }

  /** Every other category, and every other key of the same category, reads as before. */
  lemma UpdateFrame(s: SettingsObject, category: string, key: string, value: Value)
    ensures forall c :: c != category ==> Lookup(Updated(s, category, key, value), c) == Lookup(s, c)
    ensures forall k :: k != key ==> Get(Updated(s, category, key, value), category, k) == Get(s, category, k)
  {
    var inner := Put(CategoryOf(s, category), key, value);
    forall c | c != category ensures Lookup(Updated(s, category, key, value), c) == Lookup(s, c) {
      PutLookupOther(s, category, inner, c);
    }
    PutLookupSame(s, category, inner);
    forall k | k != key ensures Get(Updated(s, category, key, value), category, k) == Get(s, category, k) {
      PutLookupOther(CategoryOf(s, category), key, value, k);
    }
  }

  /** Applying the same update twice gives the same object as applying it once. */
  lemma UpdateIdempotent(s: SettingsObject, category: string, key: string, value: Value)
    ensures Updated(Updated(s, category, key, value), category, key, value) == Updated(s, category, key, value)
  {
    var inner := Put(CategoryOf(s, category), key, value);
    PutLookupSame(s, category, inner);
    PutIdempotent(CategoryOf(s, category), key, value);
    PutIdempotent(s, category, inner);
  }

  /**
   * The update moves nothing: categories keep their order (a new one is appended),
   * and so do the keys of the updated category (a new key is appended).
   */
  lemma UpdateKeepsOrder(s: SettingsObject, category: string, key: string, value: Value)
    ensures Keys(Updated(s, category, key, value)) ==
      if HasKey(s, category) then Keys(s) else Keys(s) + [category]
    ensures Keys(CategoryOf(Updated(s, category, key, value), category)) ==
      if HasKey(CategoryOf(s, category), key) then Keys(CategoryOf(s, category))
      else Keys(CategoryOf(s, category)) + [key]
  {
    var inner := Put(CategoryOf(s, category), key, value);
    PutKeys(s, category, inner);
    PutLookupSame(s, category, inner);
    PutKeys(CategoryOf(s, category), key, value);
  }

  /** The update keeps the object well formed. */
  lemma UpdateWellFormed(s: SettingsObject, category: string, key: string, value: Value)
    requires WellFormed(s)
    ensures WellFormed(Updated(s, category, key, value))
  {
    var old_inner := CategoryOf(s, category);
    var inner := Put(old_inner, key, value);
    var s' := Updated(s, category, key, value);
    PutUnique(s, category, inner);
    assert UniqueKeys(old_inner) by {
      if Lookup(s, category).Some? {
        var i :| 0 <= i < |s| && s[i] == Entry(category, old_inner);
      }
    }
    PutUnique(old_inner, key, value);
    forall i | 0 <= i < |s'| ensures UniqueKeys(s'[i].value) {
      assert s'[i] in s';
      if s'[i] != Entry(category, inner) {
        var j :| 0 <= j < |s| && s[j] == s'[i];
      }
    }
    forall i | 0 <= i < |CategoryNames| ensures HasKey(s', CategoryNames[i]) {
      var n := CategoryNames[i];
      if n == category {
        PutLookupSame(s, category, inner);
      } else {
        PutLookupOther(s, category, inner, n);
      }
    }
  }

  /** The object read as a map of maps. */
  function AsNested(s: SettingsObject): map<string, map<string, Value>> {
    map c | c in AsMap(s) :: AsMap(AsMap(s)[c])
  }

  /**
   * Read as a map of maps, `updateSetting` is the nested map update
   * `m[category := m[category][key := value]]`, with a missing category read as empty.
   */
  lemma UpdateAsNested(s: SettingsObject, category: string, key: string, value: Value)
    requires WellFormed(s)
    ensures AsNested(Updated(s, category, key, value)) ==
      AsNested(s)[category := (if category in AsNested(s) then AsNested(s)[category] else map[])[key := value]]
  {
    var old_inner := CategoryOf(s, category);
    var inner := Put(old_inner, key, value);
    LookupAsMap(s, category);
    assert UniqueKeys(old_inner) by {
      if Lookup(s, category).Some? {
        var i :| 0 <= i < |s| && s[i] == Entry(category, old_inner);
      }
    }
    assert AsMap(old_inner) == if category in AsNested(s) then AsNested(s)[category] else map[];
    PutAsMap(old_inner, key, value);
    PutAsMap(s, category, inner);
  }

  // ----- labels -----

  /** `key.replace(/([A-Z])/g, ' $1')`: a space before every upper-case ASCII letter. */
  function SpaceBeforeCapitals(key: string): string {
    if key == [] then []
    else (if IsUpper(key[0]) then [' ', key[0]] else [key[0]]) + SpaceBeforeCapitals(key[1..])
  }

  /** The row heading: `key.replace(/([A-Z])/g, ' $1').trim()`. */
  function KeyLabel(key: string): string {
    Trim(SpaceBeforeCapitals(key))
  }

  function CountUpper(s: string): nat {
    |Filter(IsUpper, s)|
  }

  /** The replacement adds exactly one character per capital. */
  lemma {:induction false} SpaceBeforeCapitalsLength(key: string)
    ensures |SpaceBeforeCapitals(key)| == |key| + CountUpper(key)
  {
    if key != [] {
      SpaceBeforeCapitalsLength(key[1..]);
    }
  }

  /** What the replacement adds is white space only: the other characters are the key's, in order. */
  lemma {:induction false} SpaceBeforeCapitalsOnlySpaces(key: string)
    ensures Filter(NotSpace, SpaceBeforeCapitals(key)) == Filter(NotSpace, key)
  {
    if key != [] {
      SpaceBeforeCapitalsOnlySpaces(key[1..]);
      var head := if IsUpper(key[0]) then [' ', key[0]] else [key[0]];
      var tail := SpaceBeforeCapitals(key[1..]);
      FilterConcat(NotSpace, head, tail);
      assert Filter(NotSpace, head) == Filter(NotSpace, [key[0]]);
    }
  }

  /** Every capital of the result comes right after a space. */
  lemma {:induction false} SpaceBeforeCapitalsCapitals(key: string)
    ensures forall i :: 0 <= i < |SpaceBeforeCapitals(key)| && IsUpper(SpaceBeforeCapitals(key)[i]) ==>
      i > 0 && SpaceBeforeCapitals(key)[i - 1] == ' '
  {
    if key != [] {
      SpaceBeforeCapitalsCapitals(key[1..]);
      var head := if IsUpper(key[0]) then [' ', key[0]] else [key[0]];
      var tail := SpaceBeforeCapitals(key[1..]);
      var r := SpaceBeforeCapitals(key);
      forall i | 0 <= i < |r| && IsUpper(r[i]) ensures i > 0 && r[i - 1] == ' ' {
        if i >= |head| {
          assert r[i] == tail[i - |head|];
        }
      }
    }
  }

  /** The result starts with the key's first character unless it is a capital, and ends with its last. */
  lemma {:induction false} SpaceBeforeCapitalsEnds(key: string)
    requires key != []
    ensures !IsUpper(key[0]) ==> SpaceBeforeCapitals(key)[0] == key[0]
    ensures IsUpper(key[0]) ==> SpaceBeforeCapitals(key)[..2] == [' ', key[0]]
    ensures SpaceBeforeCapitals(key)[|SpaceBeforeCapitals(key)| - 1] == key[|key| - 1]
  {
    var r := SpaceBeforeCapitals(key);
    if key[1..] == [] {
      assert SpaceBeforeCapitals(key[1..]) == [];
    } else {
      SpaceBeforeCapitalsEnds(key[1..]);
      SpaceBeforeCapitalsLength(key[1..]);
    }
  }

  /** The label has no white space at either end and differs from the key only in white space. */
  lemma KeyLabelSpec(key: string)
    ensures Trimmed(KeyLabel(key))
    ensures Filter(NotSpace, KeyLabel(key)) == Filter(NotSpace, key)
  {
    TrimSpec(SpaceBeforeCapitals(key));
    SpaceBeforeCapitalsOnlySpaces(key);
  }

  /**
   * A key that starts in lower case and has no white space at its ends gets exactly
   * one space per capital: its label is as long as the key plus its capitals.
   */
  lemma KeyLabelLength(key: string)
    requires key != [] && !IsUpper(key[0]) && Trimmed(key)
    ensures KeyLabel(key) == SpaceBeforeCapitals(key)
    ensures |KeyLabel(key)| == |key| + CountUpper(key)
  {
    SpaceBeforeCapitalsEnds(key);
    SpaceBeforeCapitalsLength(key);
    TrimOfTrimmed(SpaceBeforeCapitals(key));
  }

  /** A key that starts with a capital loses the leading space the replacement put there. */
  lemma KeyLabelCapitalFirst(key: string)
    requires key != [] && IsUpper(key[0]) && Trimmed(key)
    ensures KeyLabel(key) == SpaceBeforeCapitals(key)[1..]
    ensures |KeyLabel(key)| == |key| + CountUpper(key) - 1
  {
    SpaceBeforeCapitalsEnds(key);
    SpaceBeforeCapitalsLength(key);
    var r := SpaceBeforeCapitals(key);
    assert r[0] == r[..2][0] == ' ' && r[1] == r[..2][1] == key[0];
    assert TrimStart(r[1..]) == r[1..];
    assert TrimStart(r) == r[1..];
    TrimOfTrimmed(r[1..]);
  }

  /** A key without capitals and without white space at its ends is its own label. */
  lemma KeyLabelNoCapitals(key: string)
    requires forall i :: 0 <= i < |key| ==> !IsUpper(key[i])
    requires Trimmed(key)
    ensures KeyLabel(key) == key
  {
    NoCapitalsUnchanged(key);
    TrimOfTrimmed(key);
  }

  lemma {:induction false} NoCapitalsUnchanged(key: string)
    requires forall i :: 0 <= i < |key| ==> !IsUpper(key[i])
    ensures SpaceBeforeCapitals(key) == key
  {
    if key != [] {
      assert forall i :: 0 <= i < |key[1..]| ==> key[1..][i] == key[i + 1];
      NoCapitalsUnchanged(key[1..]);
      assert key == [key[0]] + key[1..];
    }
  }

  /** A capital followed by no other capital gets one space in front, and nothing else. */
  lemma CapitalisedWord(c: string)
    requires c != [] && IsUpper(c[0])
    requires forall i :: 1 <= i < |c| ==> !IsUpper(c[i])
    ensures SpaceBeforeCapitals(c) == [' '] + c
  {
    assert forall i :: 0 <= i < |c[1..]| ==> c[1..][i] == c[i + 1];
    NoCapitalsUnchanged(c[1..]);
    assert [' ', c[0]] + c[1..] == [' '] + c;
  }

  /**
   * A camelCase key of two words, the second capitalised, is labelled with the two
   * words separated by one space.
   */
  lemma KeyLabelTwoWords(w: string, c: string)
    requires w != [] && !IsSpace(w[0]) && forall i :: 0 <= i < |w| ==> !IsUpper(w[i])
    requires c != [] && IsUpper(c[0]) && !IsSpace(c[|c| - 1])
    requires forall i :: 1 <= i < |c| ==> !IsUpper(c[i])
    ensures KeyLabel(w + c) == w + [' '] + c
  {
    var r := w + [' '] + c;
    NoCapitalsUnchanged(w);
    CapitalisedWord(c);
    SpaceBeforeCapitalsConcat(w, c);
    assert SpaceBeforeCapitals(w + c) == r;
    assert r[0] == w[0] && r[|r| - 1] == c[|c| - 1];
    TrimOfTrimmed(r);
  }

  /** The key `emailNotifications`, written as its two words joined, is labelled with a space between them. */
  lemma KeyLabelCamelCase()
    ensures KeyLabel("email" + "Notifications") == "email" + " " + "Notifications"
  {
    KeyLabelTwoWords("email", "Notifications");
  }

  /** A key in lower case alone is its own label. */
  lemma KeyLabelLowerCase()
    ensures KeyLabel("animations") == "animations"
  {
    KeyLabelNoCapitals("animations");
  }

  lemma {:induction false} SpaceBeforeCapitalsConcat(a: string, b: string)
    ensures SpaceBeforeCapitals(a + b) == SpaceBeforeCapitals(a) + SpaceBeforeCapitals(b)
  {
    if a == [] {
      assert a + b == b;
    } else {
      assert (a + b)[1..] == a[1..] + b;
      SpaceBeforeCapitalsConcat(a[1..], b);
    }
  }

  // ----- appearance toggles -----

  predicate IsToggle(e: Entry<Value>) {
    e.key != "theme"
  }

  /** `Object.entries(appearance).filter(([key]) => key !== 'theme')`. */
  function Toggles(appearance: Category): Category {
    Filter(IsToggle, appearance)
  }

  /**
   * The toggle list is the appearance entries in their own order with the theme
   * left out: every other entry appears, and nothing else.
   */
  lemma TogglesSpec(appearance: Category)
    ensures IsSubsequence(Toggles(appearance), appearance)
    ensures !HasKey(Toggles(appearance), "theme")
    ensures forall e :: e in Toggles(appearance) <==> e in appearance && e.key != "theme"
  {
    FilterIsSubsequence(IsToggle, appearance);
    forall e ensures e in Toggles(appearance) <==> e in appearance && e.key != "theme" {
      FilterMembership(IsToggle, appearance, e);
    }
  }

  // ----- tabs -----

  datatype Panel = ProfilePanel | NotificationsPanel | SecurityPanel | AppearancePanel | DataPanel

  /** `renderTabContent`: each tab id shows its own panel; anything else shows the profile. */
  function TabContent(tab: string): (p: Panel)
    ensures p == NotificationsPanel <==> tab == "notifications"
    ensures p == SecurityPanel <==> tab == "security"
    ensures p == AppearancePanel <==> tab == "appearance"
    ensures p == DataPanel <==> tab == "data"
    ensures p == ProfilePanel <==> tab != "notifications" && tab != "security" && tab != "appearance" && tab != "data"
  {
    match tab
    case "profile" => ProfilePanel
    case "notifications" => NotificationsPanel
    case "security" => SecurityPanel
    case "appearance" => AppearancePanel
    case "data" => DataPanel
    case _ => ProfilePanel
  }

  /** The five tabs of the navigation reach the five panels, one each. */
  lemma TabsReachEveryPanel()
    ensures forall p: Panel :: p in Map(TabContent, CategoryNames)
    ensures forall i, j :: 0 <= i < j < |CategoryNames| ==> TabContent(CategoryNames[i]) != TabContent(CategoryNames[j])
  {
    var panels := Map(TabContent, CategoryNames);
    assert panels == [ProfilePanel, NotificationsPanel, SecurityPanel, AppearancePanel, DataPanel];
    forall p: Panel ensures p in panels {
      match p
      case ProfilePanel => assert panels[0] == p;
      case NotificationsPanel => assert panels[1] == p;
      case SecurityPanel => assert panels[2] == p;
      case AppearancePanel => assert panels[3] == p;
      case DataPanel => assert panels[4] == p;
    }
  }

  /** The initial object is well formed: five distinct categories, each with distinct keys. */
  lemma InitialSettingsSpec()
    ensures WellFormed(InitialSettings)
  {
    var s := InitialSettings;
    assert forall i :: 0 <= i < |s| ==> s[i].key == CategoryNames[i];
    assert UniqueKeys(s);
    DefaultsUnique();
    forall i | 0 <= i < |CategoryNames| ensures HasKey(s, CategoryNames[i]) {
      assert s[i].key == CategoryNames[i];
    }
  }

  lemma DefaultsUnique()
    ensures UniqueKeys(ProfileDefaults)
    ensures UniqueKeys(NotificationDefaults)
    ensures UniqueKeys(SecurityDefaults)
    ensures UniqueKeys(AppearanceDefaults)
    ensures UniqueKeys(DataDefaults)
  {
  }

  /** On the initial object the appearance panel lists every appearance entry but the first, the theme. */
  lemma InitialToggles()
    ensures Toggles(CategoryOf(InitialSettings, "appearance")) == AppearanceDefaults[1..]
  {
    var s, a := InitialSettings, AppearanceDefaults;
    assert s[3] == Entry("appearance", a);
    assert Lookup(s[3..], "appearance") == Some(a);
    assert Lookup(s, "appearance") == Some(a) by {
      assert s[1..][2..] == s[3..];
    }
    assert forall i :: 0 <= i < |a[1..]| ==> IsToggle(a[1..][i]);
    FilterKeepsAll(IsToggle, a[1..]);
  }

  /** The page's state: the settings object, the active tab and the password eye. */
  class SettingsPanel {
    var settings: SettingsObject
    var activeTab: string
    var showPassword: bool

    ghost predicate Valid()
      reads this
    {
      WellFormed(settings)
    }

    constructor ()
      ensures Valid()
      ensures settings == InitialSettings && activeTab == "profile" && !showPassword
    {
      settings := InitialSettings;
      activeTab := "profile";
      showPassword := false;
      InitialSettingsSpec();
    }

    method UpdateSetting(category: string, key: string, value: Value)
      requires Valid()
      modifies this
      ensures Valid()
      ensures settings == Updated(old(settings), category, key, value)
      ensures Get(settings, category, key) == Some(value)
      ensures forall c :: c != category ==> Lookup(settings, c) == Lookup(old(settings), c)
      ensures forall k :: k != key ==> Get(settings, category, k) == Get(old(settings), category, k)
      ensures activeTab == old(activeTab) && showPassword == old(showPassword)
    {
      UpdateWellFormed(settings, category, key, value);
      UpdateThenGet(settings, category, key, value);
      UpdateFrame(settings, category, key, value);
      settings := Updated(settings, category, key, value);
    }

    /** Clicking a tab in the navigation. */
    method SelectTab(id: string)
      modifies this
      ensures activeTab == id
      ensures settings == old(settings) && showPassword == old(showPassword)
    {
      activeTab := id;
    }

    /** The eye button beside the current-password field. */
    method ToggleShowPassword()
      modifies this
      ensures showPassword == !old(showPassword)
      ensures settings == old(settings) && activeTab == old(activeTab)
    {
      showPassword := !showPassword;
    }

    /** The panel `renderTabContent` shows. */
    function Content(): Panel
      reads this
    {
      TabContent(activeTab)
    }

    /** The rows of the appearance panel below the theme buttons. */
    function AppearanceToggles(): Category
      reads this
    {
      Toggles(CategoryOf(settings, "appearance"))
    }
  }
}
