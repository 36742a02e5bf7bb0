/**
 * The body-class bookkeeping of `AppComponent` (www/app/app.component.ts):
 * `document.body.classList` is a finite set of class tokens that the version
 * helpers and the network-change handler update in place.
 */
module BodyClassList {
  import opened ReleaseVersion

  const CoreOffline := "core-offline"
  const CoreOnline := "core-online"

  /** The classes left once every version class is gone. */
  function WithoutVersionClasses(classes: set<string>): (r: set<string>)
    ensures r <= classes
    ensures forall c :: c in r <==> c in classes && !IsVersionClass(c)
  {
    set c | c in classes && !IsVersionClass(c)
  }

  /** Removing the version classes a second time changes nothing. */
  lemma RemoveVersionClassIdempotent(classes: set<string>)
    ensures WithoutVersionClasses(WithoutVersionClasses(classes)) == WithoutVersionClasses(classes)
  {
  }

  predicate AllTokens(tokens: seq<string>) {
    forall i :: 0 <= i < |tokens| ==> IsToken(tokens[i])
  }

  /**
   * `DOMTokenList.add(...tokens)`: duplicates are ignored, and when one token is
   * not a valid class token the call throws before adding any of them.
   */
  function AddTokens(classes: set<string>, tokens: seq<string>): (r: set<string>)
    ensures classes <= r
    ensures AllTokens(tokens) ==> forall c :: c in r <==> c in classes || c in tokens
    ensures !AllTokens(tokens) ==> r == classes
  {
    if AllTokens(tokens) then classes + set t | t in tokens else classes
  }

  /** The classes after a remove-then-add on login, site update or site add. */
  function RefreshedClasses(classes: set<string>, release: string): (r: set<string>)
    // the only version classes left are the new release's, when they are valid tokens
    ensures forall c :: IsVersionClass(c) ==>
      (c in r <==> AllTokens(VersionClasses(release)) && c in VersionClasses(release))
    // every other class is untouched
    ensures forall c :: !IsVersionClass(c) ==> (c in r <==> c in classes)
  {
    AddTokens(WithoutVersionClasses(classes), VersionClasses(release))
  }

  /**
   * The refresh depends only on the classes that are not version classes, so
   * running it twice is the same as running it once.
   */
  lemma RefreshIdempotent(classes: set<string>, release: string)
    ensures RefreshedClasses(RefreshedClasses(classes, release), release) == RefreshedClasses(classes, release)
  {
    var once := RefreshedClasses(classes, release);
    assert WithoutVersionClasses(once) == WithoutVersionClasses(classes);
  }

  /** The classes after the network-change handler, given the new connection state. */
  function NetworkClasses(classes: set<string>, isOnline: bool): (r: set<string>)
    // the offline class shows exactly when offline
    ensures CoreOffline in r <==> !isOnline
    // going offline drops the online class; coming back from offline adds it
    ensures !isOnline ==> CoreOnline !in r
    ensures isOnline && CoreOffline in classes ==> CoreOnline in r
    ensures isOnline && CoreOffline !in classes ==> (CoreOnline in r <==> CoreOnline in classes)
    // nothing else changes
    ensures forall c :: c != CoreOffline && c != CoreOnline ==> (c in r <==> c in classes)
  {
    var hadOfflineMessage := CoreOffline in classes;
    var toggled := if !isOnline then classes + {CoreOffline} else classes - {CoreOffline};
    if isOnline && hadOfflineMessage then toggled + {CoreOnline}
    else if !isOnline then toggled - {CoreOnline}
    else toggled
  }

  /** The part of `AppComponent` that owns the body classes. */
  class AppComponent {
    /** `document.body.classList`. */
    var bodyClasses: set<string>

    /** A class list only ever holds valid tokens. */
    ghost predicate Valid()
      reads this
    {
      forall c :: c in bodyClasses ==> IsToken(c)
    }

    constructor (initial: set<string>)
      requires forall c :: c in initial ==> IsToken(c)
      ensures Valid() && bodyClasses == initial
    {
      bodyClasses := initial;
    }

    /**
     * `addVersionClass`: split the release into at most three fields, default
     * the second and third to "0", and add the three classes in one call.
     */
    method AddVersionClass(release: string) returns (added: bool)
      requires Valid()
      modifies this
      ensures Valid()
      ensures added == AllTokens(VersionClasses(release))
      ensures bodyClasses == AddTokens(old(bodyClasses), VersionClasses(release))
    {
      var parts := SplitLimit(release, '.', 3);
      ghost var fields := parts;
      // `parts[i] = parts[i] || '0'` overwrites or extends the array
      if |parts| < 2 { parts := parts + ["0"]; } else if parts[1] == "" { parts := parts[1 := "0"]; }
      if |parts| < 3 { parts := parts + ["0"]; } else if parts[2] == "" { parts := parts[2 := "0"]; }
      assert parts[0] == fields[0] && parts[1] == FieldOr(fields, 1) && parts[2] == FieldOr(fields, 2);
      var tokens := [
        "version-" + parts[0],
        "version-" + parts[0] + "-" + parts[1],
        "version-" + parts[0] + "-" + parts[1] + "-" + parts[2]];
      assert tokens == ClassNames(parts[0], parts[1], parts[2]);
      assert tokens == VersionClasses(release);
      added := IsToken(tokens[0]) && IsToken(tokens[1]) && IsToken(tokens[2]);
      assert added == AllTokens(tokens);
      if added {
        assert (set t | t in tokens) == {tokens[0], tokens[1], tokens[2]};
        bodyClasses := bodyClasses + {tokens[0], tokens[1], tokens[2]};
      }
    }

    /**
     * `removeVersionClass`: collect the classes whose first 8 characters are
     * `version-`, then remove them one by one.
     */
    method RemoveVersionClass()
      requires Valid()
      modifies this
      ensures Valid()
      ensures bodyClasses == WithoutVersionClasses(old(bodyClasses))
    {
      var remove: seq<string> := [];
      var pending := bodyClasses;
      while pending != {}
        invariant pending <= bodyClasses
        invariant forall c :: c in remove ==> c in bodyClasses && IsVersionClass(c)
        invariant forall c :: c in bodyClasses && c !in pending && IsVersionClass(c) ==> c in remove
        decreases pending
      {
        var tempClass :| tempClass in pending;
        if IsVersionClass(tempClass) {
          remove := remove + [tempClass];
        }
        pending := pending - {tempClass};
      }
      for i := 0 to |remove|
        invariant forall c :: c in bodyClasses <==> c in old(bodyClasses) && c !in remove[..i]
      {
        assert remove[..i + 1] == remove[..i] + [remove[i]];
        bodyClasses := bodyClasses - {remove[i]};
      }
      assert remove[..|remove|] == remove;
    }

    /** The body of the LOGIN, SITE_UPDATED and SITE_ADDED handlers: remove, then add. */
    method RefreshVersionClasses(release: string) returns (added: bool)
      requires Valid()
      modifies this
      ensures Valid()
      ensures bodyClasses == RefreshedClasses(old(bodyClasses), release)
    {
      RemoveVersionClass();
      added := AddVersionClass(release);
    }

    /** The `Network.onChange` handler, without the delayed removal of `core-online`. */
    method OnNetworkChange(isOnline: bool)
      requires Valid()
      modifies this
      ensures Valid()
      ensures bodyClasses == NetworkClasses(old(bodyClasses), isOnline)
    {
      var hadOfflineMessage := CoreOffline in bodyClasses;
      // `toggle(token, force)` adds when forced on, removes when forced off
      if !isOnline {
        bodyClasses := bodyClasses + {CoreOffline};
      } else {
        bodyClasses := bodyClasses - {CoreOffline};
      }
      if isOnline && hadOfflineMessage {
        bodyClasses := bodyClasses + {CoreOnline};
      } else if !isOnline {
        bodyClasses := bodyClasses - {CoreOnline};
      }
    }
  }
}
