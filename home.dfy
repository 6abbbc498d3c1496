/** The usage-quota state machine of the home page: the usage record and the
    prompt the page holds, the sign-in state and user profile it receives from
    the authentication provider, and the browser's local store. Loading picks
    the record from the profile or the local store; submitting runs the
    sign-in, quota and blank-prompt checks in that order and, when all pass,
    spends one prompt, persists the record and hands the prompt to the builder. */
module Home {
  import opened Text
  import opened Quota

  const SignInAlert: string := "Please sign in to submit prompts"
  const LimitAlert: string := "You've reached your free limit. Please upgrade to continue."
  const PricingRoute: string := "/pricing"
  const BuilderRoute: string := "/builder"

  /** What a submission does besides changing state: the alert it raises and
      the route it navigates to, with the prompt handed to the builder. */
  datatype Outcome =
    | NeedSignIn(alert: string)
    | QuotaExhausted(alert: string, route: string)
    | NoOp
    | Accepted(route: string, prompt: string)

  /** Everything the state machine reads or writes. `user` is the signed-in
      user object, if any, carrying its profile metadata; `localUsage` is the
      local store's entry under the key "usage", if any. */
  datatype Page = Page(
    usage: Usage,
    prompt: string,
    signedIn: bool,
    user: Option<Metadata>,
    localUsage: Option<Usage>)

  datatype Step = Step(page: Page, outcome: Outcome)

  /** The page as first rendered, before any load. */
  function Mounted(signedIn: bool, user: Option<Metadata>, localUsage: Option<Usage>): (p: Page)
    ensures p.usage == Usage(Free, 3) && p.prompt == []
    ensures p.signedIn == signedIn && p.user == user && p.localUsage == localUsage
  {
    Page(InitialUsage, [], signedIn, user, localUsage)
  }

  /** `loadUsage`: with a signed-in user the record comes from the profile
      with its defaults; otherwise a stored local record replaces the current
      one, and without one the current record stays. Only the record changes. */
  function Loaded(p: Page): (q: Page)
    ensures q == p.(usage := q.usage)
    ensures p.signedIn && p.user.Some? ==> q.usage == FromProfile(p.user.value)
    ensures !(p.signedIn && p.user.Some?) ==> q.usage == (if p.localUsage.Some? then p.localUsage.value else p.usage)
  {
    if p.signedIn && p.user.Some? then p.(usage := FromProfile(p.user.value))
    else if p.localUsage.Some? then p.(usage := p.localUsage.value)
    else p
  }

  /** `handleSubmit`. Exactly a signed-in submission that is not out of free
      prompts and has text is accepted; every other submission leaves the page
      and both stores as they were. */
  function Submitted(p: Page): (r: Step)
    ensures r.outcome.Accepted? <==> p.signedIn && !Exhausted(p.usage) && HasText(p.prompt)
    ensures !r.outcome.Accepted? ==> r.page == p
    ensures r.outcome.Accepted? ==> r.outcome == Accepted(BuilderRoute, p.prompt)
    ensures r.outcome.Accepted? ==> r.page.usage.tier == p.usage.tier
    ensures r.outcome.Accepted? ==> r.page.usage.remainingTokens == p.usage.remainingTokens - 1
  {
    if !p.signedIn then Step(p, NeedSignIn(SignInAlert))
    else if Exhausted(p.usage) then Step(p, QuotaExhausted(LimitAlert, PricingRoute))
    else if HasText(p.prompt) then
      var spent := Consumed(p.usage);
      var persisted :=
        if p.user.Some? then p.(user := Some(ToProfile(spent)))
        else p.(localUsage := Some(spent));
      Step(persisted.(usage := spent, prompt := []), Accepted(BuilderRoute, p.prompt))
    else Step(p, NoOp)
  }

  /** The "Free Tokens: n/3" indicator: only signed-in users see the usage
      indicator, and it shows the counter for the free tier. */
  predicate ShowsTokenCounter(p: Page)
    ensures ShowsTokenCounter(p) ==> p.signedIn && p.usage.tier == Free
  {
    p.signedIn && ShowsFreeCounter(p.usage)
  }

  /** The "Premium Access (Unlimited)" badge, the other face of the indicator. */
  predicate ShowsPremiumBadge(p: Page)
    ensures ShowsPremiumBadge(p) ==> p.signedIn && (p.usage.tier == Pro || p.usage.tier == Enterprise)
  {
    p.signedIn && !ShowsFreeCounter(p.usage)
  }

  /** The "Generate" button: the prompt form is shown to signed-in users and
      the button appears once the prompt has text. */
  predicate ShowsSubmitButton(p: Page)
    ensures ShowsSubmitButton(p) ==> p.signedIn && p.prompt != []
  {
    p.signedIn && HasText(p.prompt)
  }

  /** Signed-in users see exactly one face of the usage indicator, signed-out
      users neither; the upgrade banner sits outside the signed-in area, so it
      depends on the record alone, and whenever a signed-in user sees it the
      free counter is on screen too. */
  lemma IndicatorPolicy(p: Page)
    ensures p.signedIn ==> ShowsTokenCounter(p) != ShowsPremiumBadge(p)
    ensures !p.signedIn ==> !ShowsTokenCounter(p) && !ShowsPremiumBadge(p)
    ensures p.signedIn && ShowsUpgradeBanner(p.usage) ==> ShowsTokenCounter(p)
    ensures ShowsPremiumBadge(p) ==> !ShowsUpgradeBanner(p.usage)
  {
  }

  /** A signed-out submission raises the sign-in alert and changes nothing:
      not the record, not the prompt, not either store. */
  lemma SubmitSignedOut(p: Page)
    requires !p.signedIn
    ensures Submitted(p) == Step(p, NeedSignIn(SignInAlert))
  {
  }

  /** A signed-in free user with no prompts left is sent to the pricing page
      and nothing changes; the prompt is never looked at, so a blank prompt is
      redirected too. */
  lemma SubmitExhausted(p: Page)
    requires p.signedIn && p.usage.tier == Free && p.usage.remainingTokens <= 0
    ensures Submitted(p) == Step(p, QuotaExhausted(LimitAlert, PricingRoute))
    ensures Submitted(p.(prompt := [])) == Step(p.(prompt := []), QuotaExhausted(LimitAlert, PricingRoute))
  {
  }

  /** A signed-in submission that passes the quota check with a prompt made
      only of whitespace does nothing at all. */
  lemma SubmitBlankPrompt(p: Page)
    requires p.signedIn && !Exhausted(p.usage)
    requires AllWhitespace(p.prompt)
    ensures Submitted(p) == Step(p, NoOp)
  {
    HasTextIff(p.prompt);
  }

  /** An accepted submission: one prompt spent with the tier kept, that very
      record written to the profile when there is a user object and to the
      local store otherwise, the prompt handed to the builder and cleared,
      and nothing else changed. */
  lemma SubmitAccepted(p: Page, i: nat)
    requires p.signedIn && !Exhausted(p.usage)
    requires i < |p.prompt| && !IsWhitespace(p.prompt[i])
    ensures var spent := Usage(p.usage.tier, p.usage.remainingTokens - 1);
      Submitted(p) == Step(
        Page(spent, [], p.signedIn,
             if p.user.Some? then Some(ToProfile(spent)) else None,
             if p.user.Some? then p.localUsage else Some(spent)),
        Accepted(BuilderRoute, p.prompt))
  {
    HasTextIff(p.prompt);
  }

  /** The quota check never refuses a paid tier: a signed-in pro or
      enterprise user with text is always accepted, and the counter keeps
      going down, below zero if need be. */
  lemma PaidTierNeverRefused(p: Page, i: nat)
    requires p.signedIn && p.usage.tier != Free
    requires i < |p.prompt| && !IsWhitespace(p.prompt[i])
    ensures Submitted(p).outcome == Accepted(BuilderRoute, p.prompt)
    ensures Submitted(p).page.usage == Usage(p.usage.tier, p.usage.remainingTokens - 1)
  {
    HasTextIff(p.prompt);
  }

  /** A free counter that is not negative stays so across a submission, and a
      free submission is only accepted with at least one prompt left. */
  lemma FreeCounterStaysNonNegative(p: Page)
    requires p.usage.tier == Free && p.usage.remainingTokens >= 0
    ensures Submitted(p).page.usage.tier == Free
    ensures Submitted(p).page.usage.remainingTokens >= 0
    ensures Submitted(p).outcome.Accepted? ==> p.usage.remainingTokens >= 1
  {
  }

  /** The "Generate" button is on screen exactly when the prompt has text for
      a signed-in user, and pressing it is accepted exactly when the user is
      also not out of free prompts. */
  lemma SubmitButtonAccepts(p: Page)
    ensures Submitted(p).outcome.Accepted? <==> ShowsSubmitButton(p) && !Exhausted(p.usage)
    ensures ShowsSubmitButton(p) <==> p.signedIn && exists i :: 0 <= i < |p.prompt| && !IsWhitespace(p.prompt[i])
  {
    HasTextIff(p.prompt);
  }

  /** Without a user object the record goes to the local store, and loading
      it back gives the very record the submission produced. */
  lemma LocalStoreRoundTrip(p: Page)
    requires Submitted(p).outcome.Accepted? && p.user.None?
    ensures Loaded(Submitted(p).page).usage == Submitted(p).page.usage
    ensures Loaded(Submitted(p).page.(signedIn := false)).usage == Submitted(p).page.usage
  {
  }

  /** With a user object the record goes to the profile, and loading it back
      gives the same record exactly when its counter is not 0: the last free
      prompt comes back as a full allowance. */
  lemma ProfileReloadAfterSubmit(p: Page)
    requires Submitted(p).outcome.Accepted? && p.user.Some?
    ensures var q := Submitted(p).page;
      Loaded(q).usage == q.usage <==> q.usage.remainingTokens != 0
    ensures var q := Submitted(p).page;
      q.usage.remainingTokens == 0 ==> Loaded(q).usage == Usage(q.usage.tier, FreeAllowance)
  {
    var q := Submitted(p).page;
    assert q.user == Some(ToProfile(q.usage));
    ProfileRoundTrip(q.usage);
  }

  /** A sitting on one mounted page without reloads: for each text, type it
      in and submit. Returns the final page and the outcome of each
      submission. Navigation after an outcome is not followed: the page is
      assumed to stay mounted (see `Visits` for the remounting path). */
  function Session(p: Page, prompts: seq<string>): (r: (Page, seq<Outcome>))
    ensures |r.1| == |prompts|
    ensures r.0.signedIn == p.signedIn
    decreases |prompts|
  {
    if prompts == [] then (p, [])
    else
      var first := Submitted(p.(prompt := prompts[0]));
      var rest := Session(first.page, prompts[1..]);
      (rest.0, [first.outcome] + rest.1)
  }

  function AcceptedCount(outcomes: seq<Outcome>): (n: nat)
    ensures n <= |outcomes|
  {
    if outcomes == [] then 0
    else (if outcomes[0].Accepted? then 1 else 0) + AcceptedCount(outcomes[1..])
  }

  /** The main induction over a run of submissions. In any sitting on one
      mounted page, a free user who starts with n >= 0 prompts left is
      accepted exactly as many times as the counter went down, so at most n
      times, and still has a free record with a non-negative counter. The
      sign-in state never changes. */
  lemma {:induction false} FreeSessionBounded(p: Page, prompts: seq<string>)
    requires p.usage.tier == Free && p.usage.remainingTokens >= 0
    ensures var r := Session(p, prompts);
      r.0.usage.tier == Free && r.0.usage.remainingTokens >= 0 &&
      r.0.signedIn == p.signedIn &&
      AcceptedCount(r.1) == p.usage.remainingTokens - r.0.usage.remainingTokens
    ensures AcceptedCount(Session(p, prompts).1) <= p.usage.remainingTokens
    decreases |prompts|
  {
    if prompts != [] {
      var first := Submitted(p.(prompt := prompts[0]));
      FreeCounterStaysNonNegative(p.(prompt := prompts[0]));
      FreeSessionBounded(first.page, prompts[1..]);
      var rest := Session(first.page, prompts[1..]);
      assert Session(p, prompts).1 == [first.outcome] + rest.1;
      assert ([first.outcome] + rest.1)[1..] == rest.1;
    }
  }

  /** A new signed-in user with an empty profile loads the initial record and
      gets three prompts accepted. Were the page to stay mounted (no
      navigation in between), a fourth submission would be sent to the
      pricing page; but the next load, which any remount performs, finds the
      full allowance again, and a fourth visit is accepted. */
  lemma ThreePromptsThenPricing()
    ensures var p := Loaded(Mounted(true, Some(EmptyMetadata), None));
      p.usage == InitialUsage &&
      var r := Session(p, ["a", "b", "c"]);
      r.1 == [Accepted(BuilderRoute, "a"), Accepted(BuilderRoute, "b"), Accepted(BuilderRoute, "c")] &&
      r.0.usage == Usage(Free, 0) &&
      r.0.user == Some(ToProfile(Usage(Free, 0))) &&
      Submitted(r.0.(prompt := "d")) == Step(r.0.(prompt := "d"), QuotaExhausted(LimitAlert, PricingRoute)) &&
      Loaded(r.0).usage == InitialUsage &&
      Visit(r.0, "d").outcome == Accepted(BuilderRoute, "d")
  {
    var p := Loaded(Mounted(true, Some(EmptyMetadata), None));
    HasTextIff("a");
    HasTextIff("b");
    HasTextIff("c");
    HasTextIff("d");
    assert !IsWhitespace("a"[0]) && !IsWhitespace("b"[0]) && !IsWhitespace("c"[0]) && !IsWhitespace("d"[0]);
    var s1 := Submitted(p.(prompt := "a"));
    var s2 := Submitted(s1.page.(prompt := "b"));
    var s3 := Submitted(s2.page.(prompt := "c"));
    assert s3.page.usage == Usage(Free, 0);
    assert ["a", "b", "c"][1..] == ["b", "c"];
    assert ["b", "c"][1..] == ["c"];
    assert ["c"][1..] == [];
  }

  /** One visit to the page: it is mounted afresh with the current sign-in
      state and stores, loads, the user types `text` and submits. Both
      outcomes that navigate (to the builder or to pricing) leave the page,
      so the next submission happens on a new mount. */
  function Visit(p: Page, text: string): (r: Step)
    ensures r.page.signedIn == p.signedIn
    ensures r.outcome.Accepted? ==> r.outcome.prompt == text
  {
    Submitted(Loaded(Mounted(p.signedIn, p.user, p.localUsage)).(prompt := text))
  }

  /** A run of visits, each on a fresh mount of the page. */
  function Visits(p: Page, texts: seq<string>): (r: (Page, seq<Outcome>))
    ensures |r.1| == |texts|
    ensures r.0.signedIn == p.signedIn
    decreases |texts|
  {
    if texts == [] then (p, [])
    else
      var first := Visit(p, texts[0]);
      var rest := Visits(first.page, texts[1..]);
      (rest.0, [first.outcome] + rest.1)
  }

  /** A signed-in user whose profile does not read as exhausted is accepted
      on the next visit with text, and the profile written then again does
      not read as exhausted: the stored 0 comes back as 3. */
  lemma ProfileNeverExhaustedAfterRemount(p: Page, text: string)
    requires p.signedIn && p.user.Some? && !Exhausted(FromProfile(p.user.value))
    requires HasText(text)
    ensures Visit(p, text).outcome == Accepted(BuilderRoute, text)
    ensures Visit(p, text).page.user.Some?
    ensures !Exhausted(FromProfile(Visit(p, text).page.user.value))
  {
    var u := FromProfile(p.user.value);
    ProfileRoundTrip(Consumed(u));
  }

  /** Across remounts, a signed-in user with a user object whose profile does
      not read as exhausted (an empty profile, or any profile this page has
      written from one) is accepted on every visit with text: the free quota
      is never enforced on this path. */
  lemma {:induction false} RemountsNeverRefused(p: Page, texts: seq<string>)
    requires p.signedIn && p.user.Some? && !Exhausted(FromProfile(p.user.value))
    requires forall k :: 0 <= k < |texts| ==> HasText(texts[k])
    ensures AcceptedCount(Visits(p, texts).1) == |texts|
    decreases |texts|
  {
    if texts != [] {
      var first := Visit(p, texts[0]);
      ProfileNeverExhaustedAfterRemount(p, texts[0]);
      RemountsNeverRefused(first.page, texts[1..]);
      var rest := Visits(first.page, texts[1..]);
      assert Visits(p, texts).1 == [first.outcome] + rest.1;
      assert ([first.outcome] + rest.1)[1..] == rest.1;
    }
  }

  /** The page state owned by the component, with the authentication
      provider's inputs and the two stores alongside it. */
  class HomePage {
    var usage: Usage
    var prompt: string
    var signedIn: bool
    var user: Option<Metadata>
    var localUsage: Option<Usage>

    function State(): Page
      reads this
    {
      Page(usage, prompt, signedIn, user, localUsage)
    }

    /** Mounting the component: an empty prompt and the initial record. */
    constructor (signedIn: bool, user: Option<Metadata>, localUsage: Option<Usage>)
      ensures State() == Mounted(signedIn, user, localUsage)
    {
      this.usage := InitialUsage;
      this.prompt := [];
      this.signedIn := signedIn;
      this.user := user;
      this.localUsage := localUsage;
    }

    /** `loadUsage`, as the effect runs it. */
    method Load()
      modifies this
      ensures State() == Loaded(old(State()))
    {
      if signedIn && user.Some? {
        usage := FromProfile(user.value);
      } else {
        var stored := localUsage;
        if stored.Some? {
          usage := stored.value;
        }
      }
    }

    /** The authentication provider reports a new sign-in state or user; the
        effect that depends on both runs `loadUsage` again. */
    method AuthChanged(nowSignedIn: bool, nowUser: Option<Metadata>)
      modifies this
      ensures State() == Loaded(old(State()).(signedIn := nowSignedIn, user := nowUser))
    {
      signedIn := nowSignedIn;
      user := nowUser;
      Load();
    }

    /** Typing into the prompt box. */
    method Edit(text: string)
      modifies this
      ensures State() == old(State()).(prompt := text)
    {
      prompt := text;
    }

    /** `handleSubmit`: the alert and navigation are returned as the outcome. */
    method Submit() returns (outcome: Outcome)
      modifies this
      ensures Step(State(), outcome) == Submitted(old(State()))
    {
      if !signedIn {
        outcome := NeedSignIn(SignInAlert);
        return;
      }
      if usage.remainingTokens <= 0 && usage.tier == Free {
        outcome := QuotaExhausted(LimitAlert, PricingRoute);
        return;
      }
      if HasText(prompt) {
        var spent := usage.(remainingTokens := usage.remainingTokens - 1);
        usage := spent;
        if user.Some? {
          user := Some(ToProfile(spent));
        } else {
          localUsage := Some(spent);
        }
        outcome := Accepted(BuilderRoute, prompt);
        prompt := [];
      } else {
        outcome := NoOp;
      }
    }
  }
}
