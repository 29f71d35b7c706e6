/**
 * FTouchInterfaceDesignerDeviceProfile (TouchInterfaceDesignerDeviceProfile.cpp):
 * the designer's registry of device screen profiles, a map from device
 * name to profile filled once at start-up and then queried by name and
 * by category.
 *
 * The static TMap is modelled as the sequence of its entries in
 * insertion order (the map's iteration order while nothing is removed).
 * FString keys and FName categories compare ignoring case. The Slate
 * style set that holds the device pictures is not modelled.
 */
module DeviceProfile {
  import opened Common
  import opened VirtualControlTypes

  datatype DesignerDeviceProfile = DesignerDeviceProfile(
    category: string,
    deviceProfileName: string,
    styleName: string,
    screenDefinition: Vec2,
    logicalResolution: Vec2,
    screenFormat: string,
    isGeneric: bool)

  datatype Entry = Entry(deviceName: string, profile: DesignerDeviceProfile)

  /** No two entries share a device name (ignoring case). */
  predicate UniqueNames(entries: seq<Entry>)
  {
    forall i, j :: 0 <= i < |entries| && 0 <= j < |entries| && i != j ==>
      !EqualsIgnoreCase(entries[i].deviceName, entries[j].deviceName)
  }

  /** The position of the entry registered under `name`, or -1. */
  function IndexOf(entries: seq<Entry>, name: string): (i: int)
    ensures -1 <= i < |entries|
    ensures i >= 0 ==> EqualsIgnoreCase(entries[i].deviceName, name)
    ensures forall k :: i < k < |entries| ==> !EqualsIgnoreCase(entries[k].deviceName, name)
    ensures i == -1 <==> forall k :: 0 <= k < |entries| ==> !EqualsIgnoreCase(entries[k].deviceName, name)
  {
    if entries == [] then -1
    else if EqualsIgnoreCase(entries[|entries| - 1].deviceName, name) then |entries| - 1
    else IndexOf(entries[..|entries| - 1], name)
  }

  /** TMap::Add: a new name is appended; a registered name has its entry replaced where it stands. */
  function Put(entries: seq<Entry>, name: string, p: DesignerDeviceProfile): (r: seq<Entry>)
    ensures forall k :: 0 <= k < |r| ==> r[k] == Entry(name, p) || r[k] in entries
  {
    var i := IndexOf(entries, name);
    if i >= 0 then entries[i := Entry(name, p)] else entries + [Entry(name, p)]
  }

  /**
   * Adding under a name keeps names unique, makes the name map to the new
   * profile, and leaves every other name's profile as it was.
   */
  lemma PutSpec(entries: seq<Entry>, name: string, p: DesignerDeviceProfile, other: string)
    requires UniqueNames(entries)
    ensures UniqueNames(Put(entries, name, p))
    ensures Find(Put(entries, name, p), name) == Some(p)
    ensures !EqualsIgnoreCase(other, name) ==> Find(Put(entries, name, p), other) == Find(entries, other)
  {
    PutKeepsUnique(entries, name, p);
    PutFinds(entries, name, p);
    if !EqualsIgnoreCase(other, name) {
      PutKeepsOthers(entries, name, p, other);
    }
  }

  lemma PutKeepsUnique(entries: seq<Entry>, name: string, p: DesignerDeviceProfile)
    requires UniqueNames(entries)
    ensures UniqueNames(Put(entries, name, p))
  {
    var r := Put(entries, name, p);
    var i := IndexOf(entries, name);
    if i >= 0 {
      assert forall k :: 0 <= k < |r| ==> ToUpper(r[k].deviceName) == ToUpper(entries[k].deviceName);
    } else {
      assert forall k :: 0 <= k < |entries| ==> r[k] == entries[k];
    }
  }

  lemma PutKeepsOthers(entries: seq<Entry>, name: string, p: DesignerDeviceProfile, other: string)
    requires !EqualsIgnoreCase(other, name)
    ensures Find(Put(entries, name, p), other) == Find(entries, other)
  {
    var r := Put(entries, name, p);
    var i := IndexOf(entries, name);
    var j := IndexOf(entries, other);
    var jr := IndexOf(r, other);
    assert forall k :: 0 <= k < |entries| ==>
      (EqualsIgnoreCase(r[k].deviceName, other) <==> EqualsIgnoreCase(entries[k].deviceName, other));
    if i < 0 {
      assert !EqualsIgnoreCase(r[|entries|].deviceName, other);
    }
    assert jr == j;
    if j >= 0 {
      assert r[j] == entries[j];
    }
  }

  /** TMap::Find on the registry. */
  function Find(entries: seq<Entry>, name: string): (r: Option<DesignerDeviceProfile>)
    ensures r.None? <==> forall k :: 0 <= k < |entries| ==> !EqualsIgnoreCase(entries[k].deviceName, name)
  {
    var i := IndexOf(entries, name);
    if i >= 0 then Some(entries[i].profile) else None
  }

  /** With unique names, every entry is what its own name finds. */
  lemma FindOwnEntry(entries: seq<Entry>, k: int)
    requires UniqueNames(entries) && 0 <= k < |entries|
    ensures Find(entries, entries[k].deviceName) == Some(entries[k].profile)
  {
  }

  /** The names whose profile is in `category`, in registry order. */
  function NamesInCategory(entries: seq<Entry>, category: string): (r: seq<string>)
    ensures |r| <= |entries|
  {
    if entries == [] then []
    else
      var last := entries[|entries| - 1];
      NamesInCategory(entries[..|entries| - 1], category) + (if SameName(last.profile.category, category) then [last.deviceName] else [])
  }

  /** GetAllProfileNameByCategory returns exactly the names registered in the category. */
  lemma {:induction false} NamesInCategorySpec(entries: seq<Entry>, category: string, name: string)
    ensures name in NamesInCategory(entries, category) <==>
      exists k :: 0 <= k < |entries| && entries[k].deviceName == name && SameName(entries[k].profile.category, category)
  {
    if entries != [] {
      var init := entries[..|entries| - 1];
      NamesInCategorySpec(init, category, name);
      if exists k :: 0 <= k < |init| && init[k].deviceName == name && SameName(init[k].profile.category, category) {
        var k :| 0 <= k < |init| && init[k].deviceName == name && SameName(init[k].profile.category, category);
        assert entries[k] == init[k];
      }
      if exists k :: 0 <= k < |entries| && entries[k].deviceName == name && SameName(entries[k].profile.category, category) {
        var k :| 0 <= k < |entries| && entries[k].deviceName == name && SameName(entries[k].profile.category, category);
        if k < |init| {
          assert init[k] == entries[k];
        }
      }
    }
  }

  /** The profiles in `category`, in registry order. */
  function ProfilesInCategory(entries: seq<Entry>, category: string): (r: seq<DesignerDeviceProfile>)
    ensures |r| <= |entries|
    ensures forall k :: 0 <= k < |r| ==> SameName(r[k].category, category)
  {
    if entries == [] then []
    else
      var last := entries[|entries| - 1];
      ProfilesInCategory(entries[..|entries| - 1], category) + (if SameName(last.profile.category, category) then [last.profile] else [])
  }

  /** A profile of the category is listed iff one is registered. */
  lemma {:induction false} ProfilesInCategoryEmpty(entries: seq<Entry>, category: string)
    ensures ProfilesInCategory(entries, category) == [] <==>
      forall k :: 0 <= k < |entries| ==> !SameName(entries[k].profile.category, category)
  {
    if entries != [] {
      ProfilesInCategoryEmpty(entries[..|entries| - 1], category);
      assert forall k :: 0 <= k < |entries| - 1 ==> entries[..|entries| - 1][k] == entries[k];
    }
  }

  /**
   * GetAllCategories: walking the profiles in order, a category is listed
   * whenever it differs from the last one listed (NAME_None at first).
   */
  function CategoryRuns(entries: seq<Entry>): (r: seq<string>)
    ensures |r| <= |entries|
  {
    if entries == [] then []
    else
      var runs := CategoryRuns(entries[..|entries| - 1]);
      var current := if runs == [] then NameNone else runs[|runs| - 1];
      var category := entries[|entries| - 1].profile.category;
      if !SameName(category, current) then runs + [category] else runs
  }

  /** The category listed last, NAME_None before any. */
  function LastRun(runs: seq<string>): string
  {
    if runs == [] then NameNone else runs[|runs| - 1]
  }

  /** One more entry either extends the runs by its category or leaves them as they were. */
  lemma CategoryRunsStep(entries: seq<Entry>, i: nat)
    requires i < |entries|
    ensures CategoryRuns(entries[..i + 1]) ==
      if !SameName(entries[i].profile.category, LastRun(CategoryRuns(entries[..i])))
      then CategoryRuns(entries[..i]) + [entries[i].profile.category]
      else CategoryRuns(entries[..i])
    ensures LastRun(CategoryRuns(entries[..i + 1])) ==
      if !SameName(entries[i].profile.category, LastRun(CategoryRuns(entries[..i])))
      then entries[i].profile.category
      else LastRun(CategoryRuns(entries[..i]))
  {
    assert entries[..i + 1][..i] == entries[..i];
  }

  /** The loop of GetAllCategories: appends a category whenever it differs from the last one appended. */
  method AppendCategoryRuns(entries: seq<Entry>, categories: seq<string>) returns (result: seq<string>)
    ensures result == categories + CategoryRuns(entries)
  {
    result := categories;
    var current := NameNone;
    for i := 0 to |entries|
      invariant result == categories + CategoryRuns(entries[..i])
      invariant current == LastRun(CategoryRuns(entries[..i]))
    {
      CategoryRunsStep(entries, i);
      var category := entries[i].profile.category;
      if !SameName(category, current) {
        current := category;
        result := result + [current];
      }
    }
    assert entries[..|entries|] == entries;
  }

  /** No listed category repeats the one listed before it, and the first is not NAME_None. */
  lemma {:induction false} CategoryRunsDistinct(entries: seq<Entry>)
    ensures var r := CategoryRuns(entries);
      (forall k :: 0 < k < |r| ==> !SameName(r[k], r[k - 1])) &&
      (r != [] ==> !IsNone(r[0]))
  {
    if entries != [] {
      var init := entries[..|entries| - 1];
      CategoryRunsDistinct(init);
      var runs := CategoryRuns(init);
      var r := CategoryRuns(entries);
      if r != runs {
        assert forall k :: 0 <= k < |runs| ==> r[k] == runs[k];
      }
    }
  }

  /** GetAllCategories leaves no category out: every profile's category other than NAME_None is listed. */
  lemma {:induction false} CategoryListed(entries: seq<Entry>, k: int)
    requires 0 <= k < |entries| && !IsNone(entries[k].profile.category)
    ensures exists m :: 0 <= m < |CategoryRuns(entries)| && SameName(CategoryRuns(entries)[m], entries[k].profile.category)
  {
    var init := entries[..|entries| - 1];
    var runs := CategoryRuns(init);
    var r := CategoryRuns(entries);
    var category := entries[|entries| - 1].profile.category;
    assert r == runs || r == runs + [category];
    if k < |init| {
      CategoryListed(init, k);
      var m :| 0 <= m < |runs| && SameName(runs[m], init[k].profile.category);
      assert init[k] == entries[k] && r[m] == runs[m];
    } else if r == runs {
      assert runs != [];
      assert SameName(r[|r| - 1], category);
    } else {
      assert r[|r| - 1] == category;
    }
  }

  /** GetAllCategories lists nothing iff every profile's category is NAME_None. */
  lemma {:induction false} CategoryRunsEmpty(entries: seq<Entry>)
    ensures CategoryRuns(entries) == [] <==> forall k :: 0 <= k < |entries| ==> IsNone(entries[k].profile.category)
  {
    if entries != [] {
      var init := entries[..|entries| - 1];
      CategoryRunsEmpty(init);
      assert forall k :: 0 <= k < |init| ==> init[k] == entries[k];
    }
  }

  /** The registry holding the designer's device profiles. */
  class DeviceProfileRegistry {
    var profiles: seq<Entry>

    predicate Valid()
      reads this
    {
      UniqueNames(profiles)
    }

    constructor()
      ensures profiles == [] && Valid()
    {
      profiles := [];
    }

    /** Every registered profile is of a kind Initialize registers. */
    predicate AllKinds()
      reads this
    {
      forall k :: 0 <= k < |profiles| ==> RegisteredKind(profiles[k].profile)
    }

    /** SetAndroidProfile: registers a non-generic profile without a logical resolution. */
    method SetAndroidProfile(category: string, deviceName: string, deviceProfileName: string, styleName: string,
                             screenDefinition: Vec2, screenFormat: string)
      modifies this
      ensures profiles == Put(old(profiles), deviceName, AndroidProfile(category, deviceProfileName, styleName, screenDefinition, screenFormat))
      ensures old(Valid()) ==> Valid()
      ensures old(AllKinds()) && RegisteredKind(AndroidProfile(category, deviceProfileName, styleName, screenDefinition, screenFormat)) ==> AllKinds()
    {
      Register(deviceName, AndroidProfile(category, deviceProfileName, styleName, screenDefinition, screenFormat));
    }

    /** SetAppleProfile: registers a non-generic profile with its logical resolution. */
    method SetAppleProfile(category: string, deviceName: string, deviceProfileName: string, styleName: string,
                           screenDefinition: Vec2, logicalResolution: Vec2, screenFormat: string)
      modifies this
      ensures profiles == Put(old(profiles), deviceName,
        AppleProfile(category, deviceProfileName, styleName, screenDefinition, logicalResolution, screenFormat))
      ensures old(Valid()) ==> Valid()
      ensures old(AllKinds()) && RegisteredKind(AppleProfile(category, deviceProfileName, styleName, screenDefinition, logicalResolution, screenFormat)) ==>
        AllKinds()
    {
      Register(deviceName, AppleProfile(category, deviceProfileName, styleName, screenDefinition, logicalResolution, screenFormat));
    }

    /** SetGenericProfile: registers a generic profile without a logical resolution. */
    method SetGenericProfile(category: string, deviceName: string, deviceProfileName: string, styleName: string,
                             screenDefinition: Vec2, screenFormat: string)
      modifies this
      ensures profiles == Put(old(profiles), deviceName, GenericProfile(category, deviceProfileName, styleName, screenDefinition, screenFormat))
      ensures old(Valid()) ==> Valid()
      ensures old(AllKinds()) && RegisteredKind(GenericProfile(category, deviceProfileName, styleName, screenDefinition, screenFormat)) ==> AllKinds()
    {
      Register(deviceName, GenericProfile(category, deviceProfileName, styleName, screenDefinition, screenFormat));
    }

    /** DesignerDeviceProfiles.Add. */
    method Register(deviceName: string, p: DesignerDeviceProfile)
      modifies this
      ensures profiles == Put(old(profiles), deviceName, p)
      ensures old(Valid()) ==> Valid()
      ensures old(AllKinds()) && RegisteredKind(p) ==> AllKinds()
    {
      if Valid() {
        PutSpec(profiles, deviceName, p, deviceName);
      }
      profiles := Put(profiles, deviceName, p);
    }

    /**
     * Initialize: registers the generic aspect ratios and the Android and
     * Apple devices, in the order of InitialRegistrations, each through Put.
     * Afterwards a profile is generic iff its category is "Generic", and only
     * iPhone and iPad profiles carry a logical resolution.
     */
    method Initialize()
      modifies this
      ensures profiles == RegisterAll(old(profiles), InitialRegistrations())
      ensures old(Valid()) ==> Valid()
      ensures old(AllKinds()) ==> AllKinds()
    {
      InitialRegistrationsKinds();
      var registrations := InitialRegistrations();
      for i := 0 to |registrations|
        invariant profiles == RegisterAll(old(profiles), registrations[..i])
        invariant old(Valid()) ==> Valid()
        invariant old(AllKinds()) ==> AllKinds()
      {
        assert registrations[..i + 1][..i] == registrations[..i];
        Apply(registrations[i]);
      }
      assert registrations[..|registrations|] == registrations;
    }

    /** One line of Initialize: the setter that matches the registration's kind. */
    method Apply(r: Registration)
      modifies this
      ensures profiles == Put(old(profiles), r.deviceName, ProfileOf(r))
      ensures old(Valid()) ==> Valid()
      ensures old(AllKinds()) && RegisteredKind(ProfileOf(r)) ==> AllKinds()
    {
      match r
      case GenericRegistration(category, name, profileName, style, definition, format) =>
        SetGenericProfile(category, name, profileName, style, definition, format);
      case AndroidRegistration(category, name, profileName, style, definition, format) =>
        SetAndroidProfile(category, name, profileName, style, definition, format);
      case AppleRegistration(category, name, profileName, style, definition, logical, format) =>
        SetAppleProfile(category, name, profileName, style, definition, logical, format);
    }

    /** GetProfile: the profile registered under the name, if any. */
    function GetProfile(deviceName: string): (r: Option<DesignerDeviceProfile>)
      reads this
      ensures r.Some? <==> exists k :: 0 <= k < |profiles| && EqualsIgnoreCase(profiles[k].deviceName, deviceName)
      ensures r.Some? ==> exists k :: 0 <= k < |profiles| && profiles[k].profile == r.value
    {
      Find(profiles, deviceName)
    }

    /** GetScreenDefinition: zero for an unknown device. */
    function GetScreenDefinition(deviceName: string): (r: Vec2)
      reads this
      ensures GetProfile(deviceName).None? ==> r == Zero2
      ensures GetProfile(deviceName).Some? ==> r == GetProfile(deviceName).value.screenDefinition
    {
      match GetProfile(deviceName)
      case Some(p) => p.screenDefinition
      case None => Zero2
    }

    /** GetDeviceProfileName: empty for an unknown device. */
    function GetDeviceProfileName(deviceName: string): (r: string)
      reads this
      ensures GetProfile(deviceName).None? ==> r == ""
      ensures GetProfile(deviceName).Some? ==> r == GetProfile(deviceName).value.deviceProfileName
    {
      match GetProfile(deviceName)
      case Some(p) => p.deviceProfileName
      case None => ""
    }

    /** GetDeviceStyleName: empty for an unknown device. */
    function GetDeviceStyleName(deviceName: string): (r: string)
      reads this
      ensures GetProfile(deviceName).None? ==> r == ""
      ensures GetProfile(deviceName).Some? ==> r == GetProfile(deviceName).value.styleName
    {
      match GetProfile(deviceName)
      case Some(p) => p.styleName
      case None => ""
    }

    /** GetAllProfileNameByCategory: the names of the category's profiles, in registry order. */
    method GetAllProfileNameByCategory(category: string) returns (names: seq<string>)
      ensures names == NamesInCategory(profiles, category)
    {
      names := [];
      for i := 0 to |profiles|
        invariant names == NamesInCategory(profiles[..i], category)
      {
        assert profiles[..i + 1][..i] == profiles[..i];
        if SameName(profiles[i].profile.category, category) {
          names := names + [profiles[i].deviceName];
        }
      }
      assert profiles[..|profiles|] == profiles;
    }

    /** GetAllProfileByCategory: appends the category's profiles to `found`; true iff `found` ends nonempty. */
    method GetAllProfileByCategory(category: string, found: seq<DesignerDeviceProfile>)
      returns (ok: bool, result: seq<DesignerDeviceProfile>)
      ensures result == found + ProfilesInCategory(profiles, category)
      ensures ok <==> result != []
    {
      result := found;
      for i := 0 to |profiles|
        invariant result == found + ProfilesInCategory(profiles[..i], category)
      {
        assert profiles[..i + 1][..i] == profiles[..i];
        if SameName(profiles[i].profile.category, category) {
          result := result + [profiles[i].profile];
        }
      }
      assert profiles[..|profiles|] == profiles;
      ok := result != [];
    }

    /** GetAllCategories: appends the categories to `categories`; true iff it ends nonempty. */
    method GetAllCategories(categories: seq<string>) returns (ok: bool, result: seq<string>)
      ensures result == categories + CategoryRuns(profiles)
      ensures ok <==> result != []
    {
      result := AppendCategoryRuns(profiles, categories);
      ok := result != [];
    }
  }

  /** One Set*Profile call of Initialize. */
  datatype Registration =
    | GenericRegistration(category: string, deviceName: string, deviceProfileName: string, styleName: string,
                          screenDefinition: Vec2, screenFormat: string)
    | AndroidRegistration(category: string, deviceName: string, deviceProfileName: string, styleName: string,
                          screenDefinition: Vec2, screenFormat: string)
    | AppleRegistration(category: string, deviceName: string, deviceProfileName: string, styleName: string,
                        screenDefinition: Vec2, logicalResolution: Vec2, screenFormat: string)

  /** The profile a registration adds. */
  function ProfileOf(r: Registration): DesignerDeviceProfile
  {
    match r
    case GenericRegistration(category, _, profileName, style, definition, format) =>
      GenericProfile(category, profileName, style, definition, format)
    case AndroidRegistration(category, _, profileName, style, definition, format) =>
      AndroidProfile(category, profileName, style, definition, format)
    case AppleRegistration(category, _, profileName, style, definition, logical, format) =>
      AppleProfile(category, profileName, style, definition, logical, format)
  }

  /** The registry after adding every registration in order, each through Put. */
  function RegisterAll(entries: seq<Entry>, regs: seq<Registration>): seq<Entry>
    decreases |regs|
  {
    if regs == [] then entries
    else
      var last := regs[|regs| - 1];
      Put(RegisterAll(entries, regs[..|regs| - 1]), last.deviceName, ProfileOf(last))
  }

  /**
   * After the registrations, a name finds the profile of its last
   * registration; the registry's names stay unique.
   */
  lemma {:induction false} RegisterAllFinds(entries: seq<Entry>, regs: seq<Registration>, k: int)
    requires UniqueNames(entries)
    requires 0 <= k < |regs|
    requires forall j :: k < j < |regs| ==> !EqualsIgnoreCase(regs[k].deviceName, regs[j].deviceName)
    decreases |regs|
    ensures UniqueNames(RegisterAll(entries, regs))
    ensures Find(RegisterAll(entries, regs), regs[k].deviceName) == Some(ProfileOf(regs[k]))
  {
    var init := regs[..|regs| - 1];
    var last := regs[|regs| - 1];
    RegisterAllUnique(entries, init);
    PutSpec(RegisterAll(entries, init), last.deviceName, ProfileOf(last), regs[k].deviceName);
    if k < |regs| - 1 {
      assert init[k] == regs[k];
      RegisterAllFinds(entries, init, k);
    }
  }

  lemma {:induction false} RegisterAllUnique(entries: seq<Entry>, regs: seq<Registration>)
    requires UniqueNames(entries)
    decreases |regs|
    ensures UniqueNames(RegisterAll(entries, regs))
  {
    if regs != [] {
      var last := regs[|regs| - 1];
      RegisterAllUnique(entries, regs[..|regs| - 1]);
      PutKeepsUnique(RegisterAll(entries, regs[..|regs| - 1]), last.deviceName, ProfileOf(last));
    }
  }

  /** Two names that differ in length, or ignoring case at one position, are different names. */
  lemma DiffersIgnoringCase(a: string, b: string, i: int)
    requires |a| != |b| || (0 <= i < |a| && 0 <= i < |b| && ToUpperChar(a[i]) != ToUpperChar(b[i]))
    ensures !EqualsIgnoreCase(a, b)
  {
    if |a| == |b| {
      assert ToUpper(a)[i] != ToUpper(b)[i];
    }
  }

  /**
   * Once Initialize has run on a registry with unique names, "Generic 16/9"
   * is a generic 1920 x 1080 profile in the 16/9 format.
   */
  lemma InitializeRegistersGeneric169(entries: seq<Entry>)
    requires UniqueNames(entries)
    ensures Find(RegisterAll(entries, InitialRegistrations()), "Generic 16/9")
            == Some(DesignerDeviceProfile("Generic", "Android_Default", "Generic.16/9", Vec2(1920.0, 1080.0), Zero2, "16/9", true))
  {
    var regs := InitialRegistrations();
    forall j | 0 < j < |regs| ensures !EqualsIgnoreCase(regs[0].deviceName, regs[j].deviceName)
    {
      DiffersIgnoringCase(regs[0].deviceName, regs[j].deviceName, if j <= 6 then 9 else 3);
    }
    RegisterAllFinds(entries, regs, 0);
  }

  /** The devices Initialize registers, in order. */
  function InitialRegistrations(): seq<Registration>
  {
    [ GenericRegistration("Generic", "Generic 16/9", "Android_Default", "Generic.16/9", Vec2(1920.0, 1080.0), "16/9"),
      GenericRegistration("Generic", "Generic 18/9", "Android_Default", "Generic.18/9", Vec2(2160.0, 1080.0), "18/9"),
      GenericRegistration("Generic", "Generic 18.5/9", "Android_Default", "Generic.18.5/9", Vec2(2220.0, 1080.0), "18.5/9"),
      GenericRegistration("Generic", "Generic 19/9", "Android_Default", "Generic.19/9", Vec2(2280.0, 1080.0), "19/9"),
      GenericRegistration("Generic", "Generic 19.5/9", "Android_Default", "Generic.19.5/9", Vec2(2340.0, 1080.0), "19.5/9"),
      GenericRegistration("Generic", "Generic 20/9", "Android_Default", "Generic.20/9", Vec2(2400.0, 1080.0), "20/9"),
      GenericRegistration("Generic", "Generic 21/9", "Android_Default", "Generic.21/9", Vec2(2520.0, 1080.0), "21/9"),
      AndroidRegistration("Sony", "Sony Xperia 1 Mark II (2020)", "Android_Adreno6xx", "Sony.Xperia1.II", Vec2(3840.0, 1644.0), "21/9"),
      AndroidRegistration("Samsung", "[Exynos] Samsung S20 (2020)", "Android_Mali_G77", "Samsung.S20", Vec2(3200.0, 1440.0), "20/9"),
      AndroidRegistration("Samsung", "[Exynos] Samsung Galaxy Note 20 (2020)", "Android_Mali_G77", "Samsung.Note20", Vec2(2400.0, 1080.0), "20/9"),
      AndroidRegistration("Samsung", "[Exynos] Samsung Galaxy A50 (2019)", "Android_Mali_G72", "Samsung.A50", Vec2(2340.0, 1080.0), "19.5/9"),
      AndroidRegistration("Google", "Google Pixel 5 (2020)", "Android_Adreno6xx", "Google.Pixel.5", Vec2(2340.0, 1080.0), "19.5/9"),
      AndroidRegistration("OnePlus", "OnePlus 8 Pro (2020)", "Android_Adreno6xx", "OnePlus.8.Pro", Vec2(3168.0, 1440.0), "19.8/9"),
      AppleRegistration("iPhone", "iPhone 11 Pro (2019)", "iPhone11Pro", "iPhone11.Pro", Vec2(2436.0, 1125.0), Vec2(812.0, 375.0), "19.5/9"),
      AppleRegistration("iPhone", "iPhone SE 2nd gen (2020)", "iPhoneSE2", "iPhoneSE2", Vec2(1334.0, 750.0), Vec2(667.0, 375.0), "16/9"),
      AppleRegistration("iPhone", "iPhone 12 Pro (2020)", "iPhone12Pro", "iPhone12.Pro", Vec2(2532.0, 1170.0), Vec2(844.0, 390.0), "19.5/9"),
      AppleRegistration("iPhone", "iPhone 13 Pro (2021)", "iPhone13Pro", "iPhone13.Pro", Vec2(2532.0, 1170.0), Vec2(844.0, 390.0), "19.5/9"),
      AppleRegistration("iPad", "iPad 8th gen (2020) 10.2", "iPad8", "iPad.2020", Vec2(2160.0, 1620.0), Vec2(1080.0, 810.0), "4/3"),
      AppleRegistration("iPad", "iPad Pro 4th gen (2020) 11", "iPadPro2_11", "iPadPro.2020", Vec2(2388.0, 1668.0), Vec2(1194.0, 834.0), "4/3") ]
  }

  /** Every registration of Initialize adds a profile of a registered kind. */
  lemma InitialRegistrationsKinds()
    ensures forall k :: 0 <= k < |InitialRegistrations()| ==> RegisteredKind(ProfileOf(InitialRegistrations()[k]))
  {
  }

  function AndroidProfile(category: string, deviceProfileName: string, styleName: string, screenDefinition: Vec2,
                          screenFormat: string): DesignerDeviceProfile
  {
    DesignerDeviceProfile(category, deviceProfileName, styleName, screenDefinition, Zero2, screenFormat, false)
  }

  function AppleProfile(category: string, deviceProfileName: string, styleName: string, screenDefinition: Vec2,
                        logicalResolution: Vec2, screenFormat: string): DesignerDeviceProfile
  {
    DesignerDeviceProfile(category, deviceProfileName, styleName, screenDefinition, logicalResolution, screenFormat, false)
  }

  function GenericProfile(category: string, deviceProfileName: string, styleName: string, screenDefinition: Vec2,
                          screenFormat: string): DesignerDeviceProfile
  {
    DesignerDeviceProfile(category, deviceProfileName, styleName, screenDefinition, Zero2, screenFormat, true)
  }

  /** The kinds of profile Initialize registers: generic iff in "Generic"; a logical resolution only on Apple devices. */
  predicate RegisteredKind(p: DesignerDeviceProfile)
  {
    (p.isGeneric <==> p.category == "Generic") &&
    (p.logicalResolution != Zero2 ==> p.category == "iPhone" || p.category == "iPad")
  }

  /**
   * Only SetGenericProfile flags a profile generic, and only SetAppleProfile
   * gives it a logical resolution; each registers exactly what it builds.
   */
  lemma SetProfilesFlags(entries: seq<Entry>, category: string, deviceName: string, deviceProfileName: string,
                         styleName: string, screenDefinition: Vec2, logicalResolution: Vec2, screenFormat: string)
    ensures var android := AndroidProfile(category, deviceProfileName, styleName, screenDefinition, screenFormat);
      var apple := AppleProfile(category, deviceProfileName, styleName, screenDefinition, logicalResolution, screenFormat);
      var generic := GenericProfile(category, deviceProfileName, styleName, screenDefinition, screenFormat);
      Find(Put(entries, deviceName, android), deviceName) == Some(android) && !android.isGeneric && android.logicalResolution == Zero2 &&
      Find(Put(entries, deviceName, apple), deviceName) == Some(apple) && !apple.isGeneric &&
      apple.logicalResolution == logicalResolution &&
      Find(Put(entries, deviceName, generic), deviceName) == Some(generic) && generic.isGeneric && generic.logicalResolution == Zero2
  {
    PutFinds(entries, deviceName, AndroidProfile(category, deviceProfileName, styleName, screenDefinition, screenFormat));
    PutFinds(entries, deviceName, AppleProfile(category, deviceProfileName, styleName, screenDefinition, logicalResolution, screenFormat));
    PutFinds(entries, deviceName, GenericProfile(category, deviceProfileName, styleName, screenDefinition, screenFormat));
  }

  /** What was just put is what the name finds, whatever the registry held. */
  lemma PutFinds(entries: seq<Entry>, name: string, p: DesignerDeviceProfile)
    ensures Find(Put(entries, name, p), name) == Some(p)
  {
    var r := Put(entries, name, p);
    var i := IndexOf(entries, name);
    if i >= 0 {
      var j := IndexOf(r, name);
      assert EqualsIgnoreCase(r[i].deviceName, name);
    } else {
      assert r[|r| - 1] == Entry(name, p);
    }
  }
}
