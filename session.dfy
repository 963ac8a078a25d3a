/** `LocalStoragePersistence` (src/stores/localStoragePersistence.ts): the
    session fields kept in the browser's string-keyed storage, each under its
    own namespaced key. The storage is the map `items`; `setItem`,
    `getItem` and `removeItem` are update, lookup and key removal on it. */
module Session {
  import opened Types

  const USER_ID := "granaFlow.userId"
  const USER_EMAIL := "granaFlow.userEmail"
  const USER_NAME := "granaFlow.userName"
  const USER_PHOTO := "granaFlow.userPhoto"
  const JWT_TOKEN := "granaFlow.jwt"
  const JWT_REFRESH_TOKEN := "granaFlow.refresh.jwt"
  const IS_PREMIUM := "granaFlow.isPremium"

  /** The keys `getUserProfile` needs, all of them truthy. */
  const PROFILE_KEYS: set<string> := {USER_ID, USER_EMAIL, USER_NAME, USER_PHOTO, IS_PREMIUM}

  /** The keys `deleteAll` removes: both tokens and the four identity keys,
      but not IS_PREMIUM. */
  const DELETED_KEYS: set<string> := {JWT_TOKEN, JWT_REFRESH_TOKEN, USER_ID, USER_EMAIL, USER_NAME, USER_PHOTO}

  /** The keys `clearTokens` removes. */
  const TOKEN_KEYS: set<string> := {JWT_TOKEN, JWT_REFRESH_TOKEN}

  datatype UserProfile = UserProfile(id: string, email: string, name: string, avatarUrl: string, isPremium: bool)

  /** `getItem`: the stored string, or null when the key is absent. */
  function Lookup(items: map<string, string>, key: string): (v: Option<string>)
    ensures v.Some? <==> key in items
    ensures v.Some? ==> v.value == items[key]
  {
    if key in items then Some(items[key]) else None
  }

  /** JavaScript truthiness of a `getItem` result: present and non-empty. */
  predicate Truthy(items: map<string, string>, key: string)
  {
    key in items && items[key] != ""
  }

  /** The profile `getUserProfile` reads from a storage state. */
  function ProfileOf(items: map<string, string>): (p: Option<UserProfile>)
    ensures p.Some? <==> forall k :: k in PROFILE_KEYS ==> Truthy(items, k)
    ensures p.Some? ==>
      && p.value.id == items[USER_ID]
      && p.value.email == items[USER_EMAIL]
      && p.value.name == items[USER_NAME]
      && p.value.avatarUrl == items[USER_PHOTO]
      && (p.value.isPremium <==> items[IS_PREMIUM] == "true")
  {
    if Truthy(items, USER_ID) && Truthy(items, USER_EMAIL) && Truthy(items, USER_NAME)
       && Truthy(items, USER_PHOTO) && Truthy(items, IS_PREMIUM)
    then
      Some(UserProfile(items[USER_ID], items[USER_EMAIL], items[USER_NAME], items[USER_PHOTO],
                       items[IS_PREMIUM] == "true"))
    else None
  }

  /** The flag `getIsPremium` decodes from a storage state. */
  function PremiumOf(items: map<string, string>): (b: Option<bool>)
    ensures b.None? <==> !Truthy(items, IS_PREMIUM)
    ensures b == Some(true) <==> (IS_PREMIUM in items && items[IS_PREMIUM] == "true")
  {
    if Truthy(items, IS_PREMIUM) then Some(items[IS_PREMIUM] == "true") else None
  }

  /** The storage state after `setUserProfile(p)`. */
  function WithProfile(items: map<string, string>, p: UserProfile): map<string, string>
  {
    items[USER_ID := p.id][USER_EMAIL := p.email][USER_NAME := p.name][USER_PHOTO := p.avatarUrl]
  }

  /** `setUserProfile` does not write IS_PREMIUM, so reading the profile back
      gives the profile written, with the premium flag decoded from whatever
      was stored before, and gives nothing at all when no premium flag is
      stored or a written field is empty. */
  lemma ProfileAfterSetUserProfile(items: map<string, string>, p: UserProfile)
    ensures var back := ProfileOf(WithProfile(items, p));
      back.Some? <==> (p.id != "" && p.email != "" && p.name != "" && p.avatarUrl != ""
                       && Truthy(items, IS_PREMIUM))
    ensures var back := ProfileOf(WithProfile(items, p));
      back.Some? ==> back.value == p.(isPremium := items[IS_PREMIUM] == "true")
  {
    var m := WithProfile(items, p);
    assert m[USER_ID] == p.id && m[USER_EMAIL] == p.email;
    assert m[USER_NAME] == p.name && m[USER_PHOTO] == p.avatarUrl;
    assert Truthy(m, IS_PREMIUM) == Truthy(items, IS_PREMIUM);
    if ProfileOf(m).Some? {
      assert forall k :: k in PROFILE_KEYS ==> Truthy(m, k);
      assert Truthy(m, USER_ID) && Truthy(m, USER_EMAIL) && Truthy(m, USER_NAME)
        && Truthy(m, USER_PHOTO) && Truthy(m, IS_PREMIUM);
    }
  }

  /** A profile can only be read back once something has stored a premium
      flag: with IS_PREMIUM absent, `setUserProfile` then `getUserProfile`
      gives null whatever profile was written. */
  lemma NoProfileWithoutPremium(items: map<string, string>, p: UserProfile)
    requires IS_PREMIUM !in items
    ensures ProfileOf(WithProfile(items, p)) == None
  {
    ProfileAfterSetUserProfile(items, p);
  }

  /** After `deleteAll` no profile can be read, and the premium flag still
      decodes as before. */
  lemma DeleteAllForgetsProfile(items: map<string, string>)
    ensures ProfileOf(items - DELETED_KEYS) == None
    ensures PremiumOf(items - DELETED_KEYS) == PremiumOf(items)
  {
    assert !Truthy(items - DELETED_KEYS, USER_ID);
  }

  class SessionStore {
    /** The browser storage, key to stored string. */
    var items: map<string, string>

    /** The storage as the page finds it on load. */
    constructor (initial: map<string, string>)
      ensures items == initial
    {
      items := initial;
    }

    method SetUserProfile(p: UserProfile)
      modifies this
      ensures items == WithProfile(old(items), p)
      ensures Lookup(items, IS_PREMIUM) == Lookup(old(items), IS_PREMIUM)
    {
      items := items[USER_ID := p.id];
      items := items[USER_EMAIL := p.email];
      items := items[USER_NAME := p.name];
      items := items[USER_PHOTO := p.avatarUrl];
    }

    method GetUserProfile() returns (p: Option<UserProfile>)
      ensures p == ProfileOf(items)
      ensures p.Some? ==> p.value.id != "" && p.value.email != "" && p.value.name != "" && p.value.avatarUrl != ""
    {
      var id := Lookup(items, USER_ID);
      var email := Lookup(items, USER_EMAIL);
      var name := Lookup(items, USER_NAME);
      var avatarUrl := Lookup(items, USER_PHOTO);
      var premium := Lookup(items, IS_PREMIUM);
      if id.Some? && id.value != "" && email.Some? && email.value != "" && name.Some? && name.value != ""
         && avatarUrl.Some? && avatarUrl.value != "" && premium.Some? && premium.value != "" {
        var premiumParsed := false;
        if premium.value == "true" {
          premiumParsed := true;
        }
        return Some(UserProfile(id.value, email.value, name.value, avatarUrl.value, premiumParsed));
      }
      return None;
    }

    /** Removes both tokens and the identity keys; the premium flag stays. */
    method DeleteAll()
      modifies this
      ensures items == old(items) - DELETED_KEYS
      ensures Lookup(items, IS_PREMIUM) == Lookup(old(items), IS_PREMIUM)
    {
      ClearTokens();
      items := items - {USER_ID};
      items := items - {USER_EMAIL};
      items := items - {USER_NAME};
      items := items - {USER_PHOTO};
    }

    method ClearTokens()
      modifies this
      ensures items == old(items) - TOKEN_KEYS
    {
      items := items - {JWT_TOKEN};
      items := items - {JWT_REFRESH_TOKEN};
    }

    method SetJWT(value: string)
      modifies this
      ensures items == old(items)[JWT_TOKEN := value]
      ensures Lookup(items, JWT_TOKEN) == Some(value)
    {
      items := items[JWT_TOKEN := value];
    }

    method GetJWT() returns (v: Option<string>)
      ensures v == Lookup(items, JWT_TOKEN)
    {
      v := Lookup(items, JWT_TOKEN);
    }

    method SetRefreshJWT(value: string)
      modifies this
      ensures items == old(items)[JWT_REFRESH_TOKEN := value]
      ensures Lookup(items, JWT_REFRESH_TOKEN) == Some(value)
    {
      items := items[JWT_REFRESH_TOKEN := value];
    }

    method GetRefreshJWT() returns (v: Option<string>)
      ensures v == Lookup(items, JWT_REFRESH_TOKEN)
    {
      v := Lookup(items, JWT_REFRESH_TOKEN);
    }

    method SetUserId(value: string)
      modifies this
      ensures items == old(items)[USER_ID := value]
      ensures Lookup(items, USER_ID) == Some(value)
    {
      items := items[USER_ID := value];
    }

    method GetUserId() returns (v: Option<string>)
      ensures v == Lookup(items, USER_ID)
    {
      v := Lookup(items, USER_ID);
    }

    method SetIsPremium(value: string)
      modifies this
      ensures items == old(items)[IS_PREMIUM := value]
    {
      items := items[IS_PREMIUM := value];
    }

    /** null when the flag is absent or empty, true for exactly "true",
        false for any other stored string. */
    method GetIsPremium() returns (b: Option<bool>)
      ensures b == PremiumOf(items)
      ensures b.None? <==> (IS_PREMIUM !in items || items[IS_PREMIUM] == "")
      ensures b == Some(false) <==> (IS_PREMIUM in items && items[IS_PREMIUM] != "" && items[IS_PREMIUM] != "true")
    {
      var value := Lookup(items, IS_PREMIUM);
      if value.Some? && value.value != "" {
        if value.value == "true" {
          return Some(true);
        } else {
          return Some(false);
        }
      }
      return None;
    }
  }
}
