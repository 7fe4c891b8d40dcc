/** The dashboard shell (components/DashboardLayout.tsx): the business
    profile kept in the browser's storage under one key, the page chosen by
    the current path, the navigation items, and the advisor button.
    `JSON.parse` is a parameter returning `None` when it throws and
    `Some(None)` for a stored JSON `null`; `JSON.stringify` is a parameter
    too. A failing storage is a flag: every access throws and, the errors
    being caught, nothing in storage changes. */
module DashboardLayout {
  import opened Wrappers
  import opened Text
  import opened Domain

  const ProfileKey: string := "businessProfile"

  type Storage = map<string, string>

  /** What the state initialiser yields: the starting profile and the
      storage after it. */
  datatype Loaded = Loaded(profile: Option<BusinessProfile>, storage: Storage)

  /** The `useState` initialiser. Without a window, or with no stored value
      (absent or empty), there is no profile. A blank stored value is
      removed, and so is one that fails to parse. Whatever parses is taken
      as the profile. */
  function LoadProfile(hasWindow: bool, storageFails: bool, stored: Storage,
                       parse: string -> Option<Option<BusinessProfile>>): Loaded
  {
    if !hasWindow || storageFails then Loaded(None, stored)
    else if ProfileKey !in stored || stored[ProfileKey] == "" then Loaded(None, stored)
    else if Trim(stored[ProfileKey]) == [] then Loaded(None, stored - {ProfileKey})
    else match parse(stored[ProfileKey])
      case None => Loaded(None, stored - {ProfileKey})
      case Some(p) => Loaded(p, stored)
  }

  /** The storage after the persisting effect: a profile is written as JSON,
      no profile removes the key. */
  function Persisted(stored: Storage, profile: Option<BusinessProfile>, storageFails: bool,
                     stringify: BusinessProfile -> string): Storage
  {
    if storageFails then stored
    else if profile.Some? then stored[ProfileKey := stringify(profile.value)]
    else stored - {ProfileKey}
  }

  /** The pages the layout can show. */
  datatype Page = Overview | Billing | Crm | Erp | Finance | Compliance | VirtualCfo

  /** The navigation items' paths, in display order. */
  function NavPaths(): seq<string> {
    ["/dashboard/overview", "/dashboard/billing", "/dashboard/crm", "/dashboard/erp",
     "/dashboard/finance", "/dashboard/compliance", "/dashboard/virtual-cfo"]
  }

  /** The page each navigation item leads to, in the same order. */
  function NavPages(): seq<Page> {
    [Overview, Billing, Crm, Erp, Finance, Compliance, VirtualCfo]
  }

  /** The `switch (currentPath)`: each known path selects its page, anything
      else the overview. */
  function PageOf(path: string): Page {
    if path == "/dashboard/billing" then Billing
    else if path == "/dashboard/crm" then Crm
    else if path == "/dashboard/erp" then Erp
    else if path == "/dashboard/finance" then Finance
    else if path == "/dashboard/compliance" then Compliance
    else if path == "/dashboard/virtual-cfo" then VirtualCfo
    else Overview
  }

  /** Nav item `i` is highlighted. */
  predicate Active(currentPath: string, i: int) {
    0 <= i < |NavPaths()| && NavPaths()[i] == currentPath
  }

  /** The floating advisor button is shown. */
  predicate ShowsAdvisorButton(profile: Option<BusinessProfile>) {
    profile.Some?
  }

  /** Each navigation item leads to its own page, and every path that is not
      an item's shows the overview. */
  lemma PageDispatch(path: string)
    ensures |NavPaths()| == |NavPages()| == 7
    ensures forall i :: 0 <= i < 7 ==> PageOf(NavPaths()[i]) == NavPages()[i]
    ensures path !in NavPaths() ==> PageOf(path) == Overview
  {
    var ps := NavPaths();
    assert ps[0][11] == 'o' && ps[1][11] == 'b' && ps[2][11] == 'c' && ps[3][11] == 'e';
    assert ps[4][11] == 'f' && ps[5][11] == 'c' && ps[6][11] == 'v' && ps[2][12] == 'r';
  }

  /** The paths are distinct, so at most one item is highlighted, and the
      highlighted item is the one whose page is shown. */
  lemma AtMostOneActive(currentPath: string, i: int, j: int)
    requires Active(currentPath, i) && Active(currentPath, j)
    ensures i == j
    ensures PageOf(currentPath) == NavPages()[i]
  {
    var ps := NavPaths();
    assert ps[0][11] == 'o' && ps[1][11] == 'b' && ps[2][11] == 'c' && ps[3][11] == 'e';
    assert ps[4][11] == 'f' && ps[5][11] == 'c' && ps[6][11] == 'v';
    assert ps[2][12] == 'r' && ps[5][12] == 'o';
    PageDispatch(currentPath);
  }

  /** A stored profile survives a reload: persisting a profile whose JSON
      reads back as itself, then loading, gives that profile and keeps it
      stored; persisting none leaves nothing to load. */
  lemma ReloadAfterPersist(stored: Storage, profile: Option<BusinessProfile>,
                           parse: string -> Option<Option<BusinessProfile>>,
                           stringify: BusinessProfile -> string)
    requires profile.Some? ==> Trim(stringify(profile.value)) != [] && parse(stringify(profile.value)) == Some(profile)
    ensures var s := Persisted(stored, profile, false, stringify);
      LoadProfile(true, false, s, parse) == Loaded(profile, s)
  {
  }

  /** A failed load never keeps the bad value, and only the profile key is
      ever touched. */
  lemma LoadTouchesOnlyItsKey(hasWindow: bool, storageFails: bool, stored: Storage,
                              parse: string -> Option<Option<BusinessProfile>>)
    ensures var l := LoadProfile(hasWindow, storageFails, stored, parse);
      (forall k :: k != ProfileKey ==> (k in l.storage <==> k in stored))
      && (forall k :: k != ProfileKey && k in stored ==> l.storage[k] == stored[k])
      && (ProfileKey in stored && hasWindow && !storageFails && stored[ProfileKey] != "" && l.profile.None? ==>
            ProfileKey !in l.storage || parse(stored[ProfileKey]) == Some(None))
  {
  }

  class Layout {
    var businessProfile: Option<BusinessProfile>
    var storage: Storage
    var isAdvisorChatOpen: bool

    /** The first render: the profile comes from storage. */
    constructor (hasWindow: bool, storageFails: bool, stored: Storage,
                 parse: string -> Option<Option<BusinessProfile>>)
      ensures Loaded(businessProfile, storage) == LoadProfile(hasWindow, storageFails, stored, parse)
      ensures !isAdvisorChatOpen
    {
      isAdvisorChatOpen := false;
      businessProfile := None;
      storage := stored;
      if hasWindow && !storageFails {
        if ProfileKey in stored && stored[ProfileKey] != "" {
          var saved := stored[ProfileKey];
          if Trim(saved) == [] {
            storage := storage - {ProfileKey};
          } else {
            var parsed := parse(saved);
            if parsed.None? {
              storage := storage - {ProfileKey};
            } else {
              businessProfile := parsed.value;
            }
          }
        }
      }
    }

    /** `setBusinessProfile`, as the pages call it. */
    method SetBusinessProfile(p: Option<BusinessProfile>)
      modifies this
      ensures businessProfile == p && storage == old(storage) && isAdvisorChatOpen == old(isAdvisorChatOpen)
    {
      businessProfile := p;
    }

    /** The effect run after every change of the profile. */
    method PersistProfile(storageFails: bool, stringify: BusinessProfile -> string)
      modifies this
      ensures storage == Persisted(old(storage), businessProfile, storageFails, stringify)
      ensures businessProfile == old(businessProfile) && isAdvisorChatOpen == old(isAdvisorChatOpen)
    {
      if storageFails {
        return;
      }
      if businessProfile.Some? {
        storage := storage[ProfileKey := stringify(businessProfile.value)];
      } else {
        storage := storage - {ProfileKey};
      }
    }

    /** A click on the advisor button, which exists only with a profile. */
    method OpenAdvisorChat()
      modifies this
      ensures isAdvisorChatOpen == (old(isAdvisorChatOpen) || ShowsAdvisorButton(businessProfile))
      ensures businessProfile == old(businessProfile) && storage == old(storage)
    {
      if ShowsAdvisorButton(businessProfile) {
        isAdvisorChatOpen := true;
      }
    }

    method CloseAdvisorChat()
      modifies this
      ensures !isAdvisorChatOpen
      ensures businessProfile == old(businessProfile) && storage == old(storage)
    {
      isAdvisorChatOpen := false;
    }
  }
}
