/**
 * The per-browser-session state of the app (`st.session_state`, app.py:65-76)
 * and the transitions that `main` and `perform_polling` make on it. Every HTTP
 * result is an input supplied from outside: the domain list, the optional
 * allocated address, and the script of `check_messages` responses.
 */
module Session {
  import opened Optional
  import Names
  import Domains
  import Polling

  type Message = Polling.Message

  /** The keys of `st.session_state` the app uses. */
  datatype Key = GeneratedEmail | PollingComplete | Messages | PollingAttempts | MaxAttempts | CustomName

  const AllKeys: set<Key> := {GeneratedEmail, PollingComplete, Messages, PollingAttempts, MaxAttempts, CustomName}

  /** Default of `max_attempts` (app.py:74). */
  const DefaultMaxAttempts: nat := 6

  /** The body of the POST to `/email/new`; its `token` field is always "". */
  datatype AllocationRequest = AllocationRequest(domain: string, name: string)

  /** What pressing "Generate New Email" did. */
  datatype Click =
    | Rejected                                   // invalid name: st.stop() at app.py:147
    | Requested(request: AllocationRequest, stored: bool)

  /** How a pass over the "Generate Email" tab ended. */
  datatype GenerateOutcome =
    | NoDomains                                  // st.stop() at app.py:104
    | Shown(defaultIndex: nat, click: Option<Click>)
  {
    /** The pass ended in `st.stop()`, so the rest of the script does not run. */
    predicate Stopped()
    {
      NoDomains? || click == Some(Rejected)
    }

    /** The button was pressed and the address that came back was stored. */
    predicate Stored()
    {
      Shown? && click.Some? && click.value.Requested? && click.value.stored
    }
  }

  /** How a pass over the "Check Messages" tab ended. */
  datatype CheckOutcome =
    | NoAddress                                  // st.stop() at app.py:185
    | Checked(autoPolled: bool, pollCalls: nat, waits: nat, manualCalled: bool)

  /** `AllKeys` lists every key, so adding it to any set of keys gives `AllKeys`. */
  lemma EveryKeyIsKnown(keys: set<Key>)
    ensures keys + AllKeys == AllKeys
  {
    forall k | k in keys ensures k in AllKeys {
      match k
      case GeneratedEmail =>
      case PollingComplete =>
      case Messages =>
      case PollingAttempts =>
      case MaxAttempts =>
      case CustomName =>
    }
  }

  class SessionState {
    /** The keys present in `st.session_state`. */
    var present: set<Key>
    var generatedEmail: Option<string>
    var pollingComplete: bool
    var messages: seq<Message>
    var pollingAttempts: nat
    var maxAttempts: nat
    var customName: string

    /** All keys are present, as they are after initialization. */
    predicate Valid()
      reads this
    {
      present == AllKeys
    }

    /** The session holds an address: one that is neither missing nor empty (app.py:111, 165, 181). */
    predicate HasAddress()
      reads this
    {
      Truthy(generatedEmail)
    }

    /** The auto-poll guard of app.py:225-228. */
    predicate ShouldAutoPoll()
      reads this
    {
      !pollingComplete && pollingAttempts < maxAttempts
    }

    /**
     * What holds of every state reachable from a fresh session: the attempt
     * counter never exceeds the budget, it is zero while polling is pending,
     * completion means a message was found or the budget was used up, and with
     * no address there are no messages and nothing was polled.
     */
    ghost predicate Invariant()
      reads this
    {
      && Valid()
      && maxAttempts == DefaultMaxAttempts
      && pollingAttempts <= maxAttempts
      && (!pollingComplete ==> pollingAttempts == 0)
      && (pollingComplete ==> messages != [] || pollingAttempts == maxAttempts)
      && (!HasAddress() ==> messages == [] && !pollingComplete)
    }

    /** A new browser session: `st.session_state` holds no keys yet. */
    constructor ()
      ensures present == {}
    {
      present := {};
      generatedEmail := None;
      pollingComplete := false;
      messages := [];
      pollingAttempts := 0;
      maxAttempts := 0;
      customName := "";
    }

    /** app.py:65-76: give every missing key its default, keep the others. */
    method Init()
      modifies this
      ensures present == AllKeys
      ensures generatedEmail == if GeneratedEmail in old(present) then old(generatedEmail) else None
      ensures pollingComplete == if PollingComplete in old(present) then old(pollingComplete) else false
      ensures messages == if Messages in old(present) then old(messages) else []
      ensures pollingAttempts == if PollingAttempts in old(present) then old(pollingAttempts) else 0
      ensures maxAttempts == if MaxAttempts in old(present) then old(maxAttempts) else DefaultMaxAttempts
      ensures customName == if CustomName in old(present) then old(customName) else ""
      ensures old(present) == AllKeys ==> unchanged(this)
      ensures old(present) == {} || old(Invariant()) ==> Invariant()
    {
      if GeneratedEmail !in present {
        generatedEmail := None;
      }
      if PollingComplete !in present {
        pollingComplete := false;
      }
      if Messages !in present {
        messages := [];
      }
      if PollingAttempts !in present {
        pollingAttempts := 0;
      }
      if MaxAttempts !in present {
        maxAttempts := DefaultMaxAttempts;
      }
      if CustomName !in present {
        customName := "";
      }
      EveryKeyIsKnown(present);
      present := present + AllKeys;
    }

    /**
     * The "Generate New Email" button (app.py:139-161), given the selected
     * domain: reject an invalid custom name before any call, otherwise ask for
     * the custom or a random name and, if an address comes back, store it and
     * reset everything that belonged to the previous one.
     */
    method Generate(selected: string, emailName: string, nameLength: nat, allocation: Option<string>)
      returns (click: Click)
      requires Valid()
      modifies this
      ensures present == old(present) && maxAttempts == old(maxAttempts)
      ensures click.Rejected? <==> emailName != "" && !Names.ValidateEmailName(emailName)
      ensures click.Requested? ==> click.request.domain == selected
      ensures click.Requested? && emailName != "" ==> click.request.name == emailName
      ensures click.Requested? && emailName == "" ==>
                |click.request.name| == nameLength &&
                forall i :: 0 <= i < nameLength ==> Names.IsLowercase(click.request.name[i])
      ensures click.Requested? ==> (click.stored <==> Truthy(allocation))
      ensures click.Requested? && click.stored ==>
                generatedEmail == allocation && messages == [] && !pollingComplete &&
                pollingAttempts == 0 && customName == ""
      ensures !(click.Requested? && click.stored) ==> unchanged(this)
      ensures old(Invariant()) ==> Invariant()
    {
      var nameToUse: string;
      if emailName != "" {
        if Names.ValidateEmailName(emailName) {
          nameToUse := emailName;
        } else {
          return Rejected;
        }
      } else {
        nameToUse := Names.RandomWord(nameLength);
      }
      var stored := Truthy(allocation);
      if stored {
        generatedEmail := allocation;
        messages := [];
        pollingComplete := false;
        pollingAttempts := 0;
        customName := "";
      }
      return Requested(AllocationRequest(selected, nameToUse), stored);
    }

    /**
     * One pass over the "Generate Email" tab (app.py:98-161). `domains` is what
     * `get_domains` returned, `selection` the entry the user picked (None: the
     * pre-selected one), `emailName` the text field, `pressed` the button,
     * `nameLength` the sidebar setting and `allocation` what `generate_email`
     * returns.
     */
    method GenerateTab(domains: seq<Domains.Domain>, selection: Option<nat>, emailName: string, pressed: bool,
                       nameLength: nat, allocation: Option<string>)
      returns (outcome: GenerateOutcome)
      requires Valid()
      requires selection.Some? ==> selection.value < |domains|
      modifies this
      ensures present == old(present) && maxAttempts == old(maxAttempts)
      ensures outcome.NoDomains? <==> |domains| == 0
      ensures outcome.NoDomains? ==> unchanged(this)
      ensures outcome.Shown? ==>
                && outcome.defaultIndex == Domains.DefaultDomainIndex(old(generatedEmail), Domains.DomainNames(domains))
                && (outcome.click.Some? <==> pressed)
      ensures outcome.Shown? && outcome.click.Some? && outcome.click.value.Requested? ==>
                outcome.click.value.request.domain ==
                domains[if selection.Some? then selection.value else outcome.defaultIndex].name
      ensures outcome.Shown? && outcome.click.Some? ==>
                (outcome.click.value.Rejected? <==> emailName != "" && !Names.ValidateEmailName(emailName))
      ensures outcome.Shown? && outcome.click.Some? && outcome.click.value.Requested? ==>
                && (outcome.click.value.stored <==> Truthy(allocation))
                && (emailName != "" ==> outcome.click.value.request.name == emailName)
                && (emailName == "" ==>
                      |outcome.click.value.request.name| == nameLength &&
                      forall i :: 0 <= i < nameLength ==> Names.IsLowercase(outcome.click.value.request.name[i]))
      ensures outcome.Stored() ==>
                generatedEmail == allocation && messages == [] && !pollingComplete &&
                pollingAttempts == 0 && customName == ""
      ensures outcome.Shown? && !outcome.Stored() ==>
                && customName == Names.Strip(emailName)
                && generatedEmail == old(generatedEmail) && messages == old(messages)
                && pollingComplete == old(pollingComplete) && pollingAttempts == old(pollingAttempts)
      ensures old(Invariant()) ==> Invariant()
    {
      if |domains| == 0 {
        return NoDomains;
      }
      var names := Domains.DomainNames(domains);
      var defaultIndex := Domains.DefaultDomainIndex(generatedEmail, names);
      var selected := names[if selection.Some? then selection.value else defaultIndex];
      customName := Names.Strip(emailName);
      if !pressed {
        return Shown(defaultIndex, None);
      }
      var click := Generate(selected, emailName, nameLength, allocation);
      return Shown(defaultIndex, Some(click));
    }

    /**
     * `perform_polling` (app.py:198-222): up to `max_attempts` calls, each
     * counted in `polling_attempts`, stopping at the first non-empty response,
     * which replaces `messages`; a 5-second wait follows every empty response.
     * `responses[i]` is what the i-th call returns.
     */
    method PerformPolling(responses: seq<seq<Message>>) returns (calls: nat, waits: nat)
      requires Valid()
      requires |responses| >= maxAttempts
      modifies this
      ensures maxAttempts == old(maxAttempts) && present == old(present)
      ensures calls == Polling.CallsMade(responses[..maxAttempts])
      ensures waits == if Polling.AllEmpty(responses[..maxAttempts]) then calls else calls - 1
      ensures pollingAttempts == old(pollingAttempts) + calls
      ensures messages == match Polling.FirstNonEmpty(responses[..maxAttempts])
                          case Some(k) => responses[k]
                          case None => old(messages)
      ensures pollingComplete
      ensures generatedEmail == old(generatedEmail) && customName == old(customName)
      ensures old(Invariant()) && old(HasAddress()) && old(ShouldAutoPoll()) ==> Invariant()
    {
      calls, waits := 0, 0;
      for attempt := 0 to maxAttempts
        invariant calls == attempt && waits == attempt
        invariant pollingAttempts == old(pollingAttempts) + attempt
        invariant Polling.AllEmpty(responses[..attempt])
        invariant messages == old(messages) && !pollingComplete == !old(pollingComplete)
        invariant generatedEmail == old(generatedEmail) && customName == old(customName)
        invariant maxAttempts == old(maxAttempts) && present == old(present)
      {
        pollingAttempts := pollingAttempts + 1;
        var received := responses[attempt];
        calls := calls + 1;
        if received != [] {
          messages := received;
          pollingComplete := true;
          Polling.FirstNonEmptyAt(responses[..maxAttempts], attempt);
          return;
        }
        assert responses[..attempt + 1] == responses[..attempt] + [received];
        waits := waits + 1;
      }
      pollingComplete := true;
      assert responses[..maxAttempts][..maxAttempts] == responses[..maxAttempts];
    }

    /** The manual check (app.py:249-261): one call whose non-empty result replaces `messages`. */
    method ManualCheck(response: seq<Message>)
      requires Valid()
      modifies this
      ensures messages == if response != [] then response else old(messages)
      ensures pollingComplete == old(pollingComplete) && pollingAttempts == old(pollingAttempts)
      ensures generatedEmail == old(generatedEmail) && customName == old(customName)
      ensures maxAttempts == old(maxAttempts) && present == old(present)
      ensures old(Invariant()) && old(pollingComplete) ==> Invariant()
    {
      if response != [] {
        messages := response;
      }
    }

    /**
     * One pass over the "Check Messages" tab (app.py:180-261): stop without an
     * address, poll automatically when the guard allows, then offer the manual
     * check once polling is complete.
     */
    method CheckTab(responses: seq<seq<Message>>, manualPressed: bool, manualResponse: seq<Message>)
      returns (outcome: CheckOutcome)
      requires Valid()
      requires |responses| >= maxAttempts
      modifies this
      ensures outcome.NoAddress? <==> !old(HasAddress())
      ensures outcome.NoAddress? ==> unchanged(this)
      ensures generatedEmail == old(generatedEmail) && customName == old(customName)
      ensures maxAttempts == old(maxAttempts) && present == old(present)
      ensures outcome.Checked? ==> (outcome.autoPolled <==> old(ShouldAutoPoll()))
      ensures outcome.Checked? && !outcome.autoPolled ==>
                outcome.pollCalls == 0 && outcome.waits == 0 &&
                pollingAttempts == old(pollingAttempts) && pollingComplete == old(pollingComplete)
      ensures outcome.Checked? && outcome.autoPolled ==>
                outcome.pollCalls == Polling.CallsMade(responses[..maxAttempts]) &&
                outcome.waits == (if Polling.AllEmpty(responses[..maxAttempts]) then outcome.pollCalls
                                  else outcome.pollCalls - 1) &&
                pollingAttempts == old(pollingAttempts) + outcome.pollCalls && pollingComplete
      ensures outcome.Checked? ==> (outcome.manualCalled <==> pollingComplete && manualPressed)
      ensures outcome.Checked? && outcome.manualCalled && manualResponse != [] ==> messages == manualResponse
      ensures outcome.Checked? && !(outcome.manualCalled && manualResponse != []) ==>
                messages == if !outcome.autoPolled then old(messages)
                            else match Polling.FirstNonEmpty(responses[..maxAttempts])
                                 case Some(k) => responses[k]
                                 case None => old(messages)
      ensures old(Invariant()) ==> Invariant()
      ensures old(Invariant()) && old(HasAddress()) ==> pollingComplete
    {
      if !HasAddress() {
        return NoAddress;
      }
      var autoPolled := ShouldAutoPoll();
      var calls, waits := 0, 0;
      if autoPolled {
        calls, waits := PerformPolling(responses);
      }
      var manualCalled := pollingComplete && manualPressed;
      if manualCalled {
        ManualCheck(manualResponse);
      }
      return Checked(autoPolled, calls, waits, manualCalled);
    }

    /**
     * One top-to-bottom run of `main`: initialization, then the first tab and,
     * unless it stopped the script, the second.
     */
    method Run(domains: seq<Domains.Domain>, selection: Option<nat>, emailName: string, generatePressed: bool,
               nameLength: nat, allocation: Option<string>,
               responses: seq<seq<Message>>, manualPressed: bool, manualResponse: seq<Message>)
      returns (generated: GenerateOutcome, checked: Option<CheckOutcome>)
      requires present == {} || Invariant()
      requires selection.Some? ==> selection.value < |domains|
      requires |responses| >= DefaultMaxAttempts
      modifies this
      ensures Invariant()
      ensures checked.None? <==> generated.Stopped()
      // The first tab decides as GenerateTab does, on the address held after Init.
      ensures generated.NoDomains? <==> |domains| == 0
      ensures generated.Shown? ==>
                generated.defaultIndex ==
                Domains.DefaultDomainIndex(if old(present) == {} then None else old(generatedEmail), Domains.DomainNames(domains))
      ensures generated.Shown? && generated.click.Some? && generated.click.value.Requested? ==>
                && generated.click.value.request.domain ==
                   domains[if selection.Some? then selection.value else generated.defaultIndex].name
                && (emailName != "" ==> generated.click.value.request.name == emailName)
                && (emailName == "" ==>
                      |generated.click.value.request.name| == nameLength &&
                      forall i :: 0 <= i < nameLength ==> Names.IsLowercase(generated.click.value.request.name[i]))
      ensures generated.Shown? ==> (generated.click.Some? <==> generatePressed)
      ensures generated.Shown? && generated.click.Some? ==>
                (generated.click.value.Rejected? <==> emailName != "" && !Names.ValidateEmailName(emailName))
      ensures generated.Shown? && generated.click.Some? && generated.click.value.Requested? ==>
                (generated.click.value.stored <==> Truthy(allocation))
      // A stop leaves the state Init produced, except for the custom name.
      ensures generated.Stopped() && old(present) == {} ==>
                generatedEmail == None && messages == [] && !pollingComplete && pollingAttempts == 0
      ensures generated.Stopped() && old(present) != {} ==>
                && generatedEmail == old(generatedEmail) && messages == old(messages)
                && pollingComplete == old(pollingComplete) && pollingAttempts == old(pollingAttempts)
      ensures generated.NoDomains? ==> customName == if old(present) == {} then "" else old(customName)
      ensures generated.Shown? ==> customName == if generated.Stored() then "" else Names.Strip(emailName)
      // A stored address is polled at once, from a reset counter and an empty message list.
      ensures generated.Stored() ==>
                && generatedEmail == allocation
                && checked.Some? && checked.value.Checked? && checked.value.autoPolled
                && pollingAttempts == Polling.CallsMade(responses[..DefaultMaxAttempts])
                && checked.value.pollCalls == pollingAttempts
      ensures generated.Stored() && !(checked.value.manualCalled && manualResponse != []) ==>
                messages == match Polling.FirstNonEmpty(responses[..DefaultMaxAttempts])
                            case Some(k) => responses[k]
                            case None => []
      // Without a new address, the address is the one held before the run.
      ensures !generated.Stored() ==> generatedEmail == if old(present) == {} then None else old(generatedEmail)
      ensures checked.Some? ==> (checked.value.Checked? <==> HasAddress())
      ensures checked.Some? && checked.value.Checked? ==> pollingComplete
      // The second tab with the address held before the run: polling resumes only if it was pending.
      ensures checked.Some? && checked.value.Checked? && !generated.Stored() ==>
                && old(present) != {}
                && (checked.value.autoPolled <==> !old(pollingComplete))
                && (!checked.value.autoPolled ==> checked.value.pollCalls == 0 && pollingAttempts == old(pollingAttempts))
                && (checked.value.autoPolled ==>
                      checked.value.pollCalls == Polling.CallsMade(responses[..DefaultMaxAttempts]) &&
                      pollingAttempts == old(pollingAttempts) + checked.value.pollCalls)
      ensures checked.Some? && checked.value.Checked? && !generated.Stored() &&
              !(checked.value.manualCalled && manualResponse != []) ==>
                messages == if !checked.value.autoPolled then old(messages)
                            else match Polling.FirstNonEmpty(responses[..DefaultMaxAttempts])
                                 case Some(k) => responses[k]
                                 case None => old(messages)
      // Polling is complete when the manual button is reached, so a press always makes the call.
      ensures checked.Some? && checked.value.Checked? ==> (checked.value.manualCalled <==> manualPressed)
      ensures checked.Some? && checked.value.Checked? && checked.value.manualCalled && manualResponse != [] ==>
                messages == manualResponse
    {
      Init();
      generated := GenerateTab(domains, selection, emailName, generatePressed, nameLength, allocation);
      if generated.Stopped() {
        return generated, None;
      }
      var outcome := CheckTab(responses, manualPressed, manualResponse);
      checked := Some(outcome);
    }
  }

  /** A fresh session allocates an address and finds a message on the sixth automatic attempt. */
  method SixthAttemptScenario(m: Message)
  {
    var session := new SessionState();
    session.Init();
    var click := session.Generate("example.com", "", 6, Some("abcdef@example.com"));
    assert session.HasAddress() && session.ShouldAutoPoll() && session.maxAttempts == 6;

    var script: seq<seq<Message>> := [[], [], [], [], [], [m]];
    assert script[..DefaultMaxAttempts] == script;
    Polling.FirstNonEmptyAt(script, 5);
    var polled := session.CheckTab(script, false, []);
    assert session.pollingAttempts == 6 && session.pollingComplete && session.messages == [m];
  }

  /** After polling completed, a manual check replaces the messages without touching the counter. */
  method ManualCheckScenario(m: Message, later: Message, script: seq<seq<Message>>)
    requires |script| >= DefaultMaxAttempts
  {
    var session := new SessionState();
    session.present, session.maxAttempts := AllKeys, DefaultMaxAttempts;
    session.generatedEmail := Some("abcdef@example.com");
    session.pollingComplete, session.pollingAttempts, session.messages := true, 6, [m];

    var again := session.CheckTab(script, true, [later]);
    assert !again.autoPolled && again.manualCalled;
    assert session.pollingAttempts == 6 && session.messages == [later];
  }

  /** A new address clears the messages and restarts polling. */
  method ReallocateScenario(m: Message)
  {
    var session := new SessionState();
    session.present, session.maxAttempts := AllKeys, DefaultMaxAttempts;
    session.generatedEmail := Some("abcdef@example.com");
    session.pollingComplete, session.pollingAttempts, session.messages := true, 6, [m];

    var click := session.Generate("example.com", "", 8, Some("qwertyui@example.com"));
    assert click.Requested? && |click.request.name| == 8;
    assert session.messages == [] && session.pollingAttempts == 0 && !session.pollingComplete;
    assert session.ShouldAutoPoll();
  }

  /** A pressed button with a name containing a space stops the pass and stores nothing. */
  method InvalidNameScenario()
  {
    var session := new SessionState();
    session.Init();
    var outcome := session.GenerateTab([Domains.Domain("example.com")], None, "a b", true, 6, Some("a b@example.com"));
    assert Names.NameRunLength("a b") == 1;
    assert outcome.Stopped();
    assert session.generatedEmail == None && session.customName == "a b";
  }

  /** A first run that generates an address stores it and polls it in the same run. */
  method FirstRunScenario(responses: seq<seq<Message>>)
    requires |responses| >= DefaultMaxAttempts
  {
    var session := new SessionState();
    var generated, checked := session.Run([Domains.Domain("example.com")], None, "", true, 6, Some("abc@example.com"),
                                          responses, false, []);
    assert generated.Stored();
    assert session.generatedEmail == Some("abc@example.com");
    assert session.pollingComplete && session.pollingAttempts <= DefaultMaxAttempts;
  }

  /**
   * A second run without a new address does not poll again: the counter and
   * the messages stay, and only a manual check with messages replaces them.
   */
  method SecondRunScenario(responses: seq<seq<Message>>, m: Message)
    requires |responses| >= DefaultMaxAttempts
  {
    var session := new SessionState();
    var g1, c1 := session.Run([Domains.Domain("example.com")], None, "", true, 6, Some("abc@example.com"),
                              responses, false, []);
    var before, kept := session.pollingAttempts, session.messages;
    var g2, c2 := session.Run([Domains.Domain("example.com")], None, "", false, 6, None, responses, false, []);
    assert c2.Some? && !c2.value.autoPolled;
    assert session.pollingAttempts == before && session.messages == kept;
    var g3, c3 := session.Run([Domains.Domain("example.com")], None, "", false, 6, None, responses, true, [m]);
    assert session.pollingAttempts == before && session.messages == [m];
  }

  /** The request of a first run names the only domain and a random name of the configured length. */
  method FirstRequestScenario(responses: seq<seq<Message>>)
    requires |responses| >= DefaultMaxAttempts
  {
    var session := new SessionState();
    var generated, checked := session.Run([Domains.Domain("example.com")], None, "", true, 6, Some("abc@example.com"),
                                          responses, false, []);
    assert generated.click.value.request.domain == "example.com";
    assert |generated.click.value.request.name| == 6;
  }

  /** A run after `x@b.com` was stored preselects `b.com`. */
  method PreselectionScenario(responses: seq<seq<Message>>)
    requires |responses| >= DefaultMaxAttempts
  {
    var session := new SessionState();
    session.present, session.maxAttempts, session.customName := AllKeys, DefaultMaxAttempts, "";
    session.generatedEmail := Some("x@b.com");
    session.pollingComplete, session.pollingAttempts, session.messages := true, 6, [];

    var two := [Domains.Domain("a.com"), Domains.Domain("b.com")];
    assert Domains.DomainNames(two) == ["a.com", "b.com"];
    Domains.DefaultIndexOfAllocatedAddress("x", "b.com", ["a.com", "b.com"]);
    var generated, checked := session.Run(two, None, "", false, 6, None, responses, false, []);
    assert generated.defaultIndex == 1;
  }

  /** With a budget of three attempts and three empty responses, polling uses up the budget. */
  method ExhaustedScenario()
  {
    var session := new SessionState();
    session.present := AllKeys;
    session.generatedEmail := Some("abc@example.com");
    session.maxAttempts := 3;
    session.messages, session.pollingAttempts, session.pollingComplete := [], 0, false;
    var script: seq<seq<Message>> := [[], [], []];
    assert script[..3] == script;
    assert Polling.AllEmpty(script);
    var calls, waits := session.PerformPolling(script);
    assert calls == 3 && waits == 3;
    assert session.pollingComplete && session.messages == [] && session.pollingAttempts == 3;
  }
}
