/** The cookie-consent banner: a key-value store standing for the
    browser's local storage, the banner's `visible` flag and the pending
    show-timer the mount effect starts. */
module CookieBanner {

  const CookieKey: string := "nexvstar_cookie_consent"

  /** The three buttons: "Accept All", "Essential Only" and the close
      button. */
  datatype Choice = AcceptAll | EssentialOnly | Dismiss

  /** The value each choice stores under the consent key. */
  function ConsentValue(c: Choice): (v: string)
    ensures v != ""
  {
    match c
      case AcceptAll => "accepted"
      case EssentialOnly => "essential-only"
      case Dismiss => "dismissed"
  }

  /** The three choices store three different values. */
  lemma ConsentValuesDistinct(c: Choice, d: Choice)
    ensures ConsentValue(c) == ConsentValue(d) <==> c == d
  {
    if c != d {
      assert ConsentValue(c)[0] != ConsentValue(d)[0];
    }
  }

  /** `!localStorage.getItem(COOKIE_KEY)` is false: a missing key reads
      as `null` and an empty value is falsy too. */
  predicate HasConsent(store: map<string, string>) {
    CookieKey in store && store[CookieKey] != ""
  }

  /** `localStorage.setItem(COOKIE_KEY, value)` for a choice: the consent
      key is set to the choice's value and every other key, present or
      absent, stays as it was. */
  function Record(store: map<string, string>, c: Choice): (r: map<string, string>)
    ensures CookieKey in r && r[CookieKey] == ConsentValue(c)
    ensures r.Keys == store.Keys + {CookieKey}
    ensures forall k :: k != CookieKey && k in store ==> r[k] == store[k]
  {
    store[CookieKey := ConsentValue(c)]
  }

  /** After any choice the store holds a consent, so a later mount does
      not schedule the banner. */
  lemma ChoiceIsRemembered(store: map<string, string>, c: Choice)
    ensures HasConsent(Record(store, c))
  {
  }

  datatype View = Nothing | Banner

  /** `if (!visible) return null`. */
  function Render(visible: bool): (v: View)
    ensures v == Nothing <==> !visible
  {
    if visible then Banner else Nothing
  }

  class ConsentBanner {
    var store: map<string, string>
    var visible: bool
    /** The 1.5 s timer that shows the banner is pending. */
    var scheduled: bool

    /** The banner is on screen, or about to be, only while no consent is
        stored, and once shown its timer is spent. */
    predicate Valid()
      reads this
    {
      ((visible || scheduled) ==> !HasConsent(store)) && !(visible && scheduled)
    }

    /** Mounting reads the store and starts the show-timer exactly when no
        consent is stored; the banner starts hidden. */
    constructor Mount(store0: map<string, string>)
      ensures Valid()
      ensures store == store0 && !visible
      ensures scheduled <==> !HasConsent(store0)
    {
      store := store0;
      visible := false;
      scheduled := !HasConsent(store0);
    }

    /** The timer fires and shows the banner. */
    method TimerFires()
      requires Valid() && scheduled
      modifies this
      ensures Valid()
      ensures visible && !scheduled && store == old(store)
    {
      visible, scheduled := true, false;
    }

    /** Unmounting clears a pending timer. */
    method Unmount()
      requires Valid()
      modifies this
      ensures Valid()
      ensures !scheduled && visible == old(visible) && store == old(store)
    {
      scheduled := false;
    }

    /** The shared shape of the three button handlers: store the choice's
        value under the consent key, then hide the banner. */
    method Choose(c: Choice)
      requires Valid() && visible
      modifies this
      ensures Valid()
      ensures store == Record(old(store), c) && !visible && !scheduled
    {
      store := Record(store, c);
      visible := false;
    }

    /** `acceptAll`: stores "accepted" and hides the banner. */
    method AcceptAllCookies()
      requires Valid() && visible
      modifies this
      ensures Valid()
      ensures store == old(store)[CookieKey := "accepted"] && !visible && !scheduled
    {
      Choose(AcceptAll);
    }

    /** `rejectNonEssential`: stores "essential-only" and hides the
        banner. */
    method RejectNonEssential()
      requires Valid() && visible
      modifies this
      ensures Valid()
      ensures store == old(store)[CookieKey := "essential-only"] && !visible && !scheduled
    {
      Choose(EssentialOnly);
    }

    /** `dismiss`: stores "dismissed" and hides the banner. */
    method DismissBanner()
      requires Valid() && visible
      modifies this
      ensures Valid()
      ensures store == old(store)[CookieKey := "dismissed"] && !visible && !scheduled
    {
      Choose(Dismiss);
    }
  }

  /** Once a choice has been made, mounting the banner again leaves it
      hidden with no timer, whatever the store held before. */
  method RemountAfterChoice(store0: map<string, string>, c: Choice) returns (b: ConsentBanner)
    ensures b.store == Record(store0, c) && !b.visible && !b.scheduled
  {
    b := new ConsentBanner.Mount(Record(store0, c));
  }
}
