/**
 * The options-chain panel of the browser client (public/js/app.js): typing
 * in the ticker field restarts a 600 ms timer, and when it runs out the
 * trimmed, upper-cased ticker is looked up and the expiry select refilled
 * (one option per expiry, or a single "No options available" placeholder);
 * a failed lookup is ignored. Submitting the form requests the chain for
 * the ticker and the selected expiry and refills the select from the
 * answer, marking the expiry the server chose. Time is a sequence of
 * events: a keystroke, the clock reaching some instant, an answer arriving.
 */
module ChainLookup {
  import opened Common
  import opened Text
  import opened MarketData
  import opened Http
  import opened Handlers
  import opened ApiClient

  /** The `setTimeout` delay of the ticker field, in milliseconds. */
  const DebounceDelay: nat := 600

  const NoOptionsLabel := "No options available"

  /** An `<option>` of the expiry select. */
  datatype Choice = Choice(value: string, caption: string, selected: bool)

  // ---- the expiry select ----

  /** The value of the last option marked selected, if any. */
  function Marked(options: seq<Choice>): Option<string> {
    if options == [] then None
    else if options[|options| - 1].selected then Some(options[|options| - 1].value)
    else Marked(options[..|options| - 1])
  }

  /** A single select's value: its (last) marked option, else its first option, else empty. */
  function SelectedValue(options: seq<Choice>): string {
    match Marked(options)
    case Some(v) => v
    case None => if options == [] then "" else options[0].value
  }

  /** One option per expiry, in order, its value and text the expiry, marked when it is `selected`. */
  function Listing(expiries: seq<string>, selected: Option<string>): (r: seq<Choice>)
    ensures |r| == |expiries|
    ensures forall i :: 0 <= i < |r| ==>
      r[i].value == expiries[i] && r[i].caption == expiries[i] && (r[i].selected <==> selected == Some(expiries[i]))
  {
    if expiries == [] then []
    else Listing(expiries[..|expiries| - 1], selected) + [Choice(expiries[|expiries| - 1], expiries[|expiries| - 1],
      selected == Some(expiries[|expiries| - 1]))]
  }

  /** In a listing only the requested expiry can be marked. */
  lemma {:induction false} MarkedListing(expiries: seq<string>, selected: Option<string>)
    ensures Marked(Listing(expiries, selected)) ==
      if selected.Some? && selected.value in expiries then selected else None
  {
    if expiries != [] {
      var front := expiries[..|expiries| - 1];
      MarkedListing(front, selected);
      assert Listing(expiries, selected)[..|expiries| - 1] == Listing(front, selected);
      assert expiries == front + [expiries[|expiries| - 1]];
    }
  }

  /**
   * The select after a listing: the requested expiry when it is listed,
   * otherwise the first expiry, and empty for an empty listing.
   */
  lemma SelectedOfListing(expiries: seq<string>, selected: Option<string>)
    ensures SelectedValue(Listing(expiries, selected)) ==
      if selected.Some? && selected.value in expiries then selected.value
      else if expiries != [] then expiries[0]
      else ""
  {
    MarkedListing(expiries, selected);
  }

  /** What the lookup puts in the select: the expiries, or the placeholder when there are none. */
  function OptionsFor(expiries: Option<seq<string>>): (r: seq<Choice>)
    ensures expiries.Some? && expiries.value != [] ==> r == Listing(expiries.value, None)
    ensures expiries.None? || expiries.value == [] ==> r == [Choice("", NoOptionsLabel, false)]
  {
    if expiries.Some? && |expiries.value| > 0 then Listing(expiries.value, None)
    else [Choice("", NoOptionsLabel, false)]
  }

  /** After a lookup the select shows the first expiry, or the placeholder's empty value. */
  lemma SelectedAfterLookup(expiries: Option<seq<string>>)
    ensures SelectedValue(OptionsFor(expiries)) == if expiries.Some? && expiries.value != [] then expiries.value[0] else ""
  {
    if expiries.Some? && expiries.value != [] {
      SelectedOfListing(expiries.value, None);
    } else {
      var o := OptionsFor(expiries);
      assert o == [Choice("", NoOptionsLabel, false)];
      assert o[..|o| - 1] == [];
      assert Marked(o) == None;
    }
  }

  /**
   * What the submit puts in the select: the answer's expiries with the
   * server's choice marked; an answer without the field leaves it empty
   * (an empty list is truthy, so no placeholder either way).
   */
  function SubmitOptions(expiries: Option<seq<string>>, selected: Option<string>): (r: seq<Choice>)
    ensures expiries.None? ==> r == []
    ensures expiries.Some? ==> r == Listing(expiries.value, selected)
  {
    match expiries
    case None => []
    case Some(es) => Listing(es, selected)
  }

  /** The chain lookup never shows a chain the server did not choose: the select shows its expiry, or is blank. */
  lemma LookupShowsServerChoice(p: Provider, ticker: string)
    ensures var c := ChainOf(p, ticker, None);
      SelectedValue(OptionsFor(Some(c.expiries))) == if c.selectedExpiry.Some? then c.selectedExpiry.value else ""
  {
    var c := ChainOf(p, ticker, None);
    SelectedAfterLookup(Some(c.expiries));
  }

  /** The submit keeps the server's choice selected. */
  lemma SubmitShowsServerChoice(p: Provider, ticker: string, expiry: Option<string>)
    ensures var c := ChainOf(p, ticker, expiry);
      c.selectedExpiry.Some? ==> SelectedValue(SubmitOptions(Some(c.expiries), c.selectedExpiry)) == c.selectedExpiry.value
  {
    var c := ChainOf(p, ticker, expiry);
    SelectedOfListing(c.expiries, c.selectedExpiry);
  }

  // ---- the form submit ----

  /** The chain form's submit: nothing without a ticker, else the chain for the selected expiry. */
  function ChainSubmit(field: string, options: seq<Choice>): (c: Option<Call>)
    ensures c.None? <==> Upper(Strip(field)) == ""
    ensures c.Some? ==> c.value == GetOptionsChain(Given(Upper(Strip(field))), Given(SelectedValue(options)))
  {
    var ticker := Upper(Strip(field));
    if ticker == "" then None else Some(GetOptionsChain(Given(ticker), Given(SelectedValue(options))))
  }

  /**
   * Submitting while the placeholder is shown sends no expiry, so the
   * server answers with its first listed expiry rather than an error.
   */
  lemma PlaceholderSendsNoExpiry(field: string)
    requires Upper(Strip(field)) != ""
    ensures var c := ChainSubmit(field, OptionsFor(None)).value;
      c.endpoint == "/options_chain" && "expiry" !in QueryOf(c.params) && !OnlyExpiries(QueryOf(c.params))
  {
    SelectedAfterLookup(None);
    ChainRequestAsksForChain(Given(Upper(Strip(field))), Given(""));
  }

  // ---- the debounced lookup ----

  /** The panel's state: the field, the pending timer's deadline, the lookups sent, the select's options. */
  datatype Panel = Panel(field: string, deadline: Option<nat>, lookups: seq<string>, options: seq<Choice>)

  /** The answer `_fetch` settles a lookup with; the data is the answer's `expiries` field. */
  datatype Event =
    | Typed(value: string, at: nat)
    | Elapsed(at: nat)
    | Answered(outcome: Outcome<Option<seq<string>>>)

  /** The lookup the timer issues for a field value: the normalised ticker, unless it is empty. */
  function LookupFor(field: string): (r: seq<string>)
    ensures |r| <= 1
    ensures r == [] <==> Strip(field) == ""
    ensures r != [] ==> r[0] == NormalizeTicker(field) && r[0] != ""
  {
    var ticker := Upper(Strip(field));
    if |ticker| < 1 then [] else [ticker]
  }

  /** The callback of a timer that ran out; the field is read when it fires. */
  function Fire(s: Panel): Panel {
    s.(deadline := None, lookups := s.lookups + LookupFor(s.field))
  }

  /** One event: a keystroke replaces the pending timer, the clock fires a due one, an answer refills the select. */
  function Step(s: Panel, e: Event): Panel {
    match e
    case Typed(v, t) => s.(field := v, deadline := Some(t + DebounceDelay))
    case Elapsed(t) => if s.deadline.Some? && s.deadline.value <= t then Fire(s) else s
    case Answered(o) => if o.Resolved? then s.(options := OptionsFor(o.data)) else s
  }

  function Run(s: Panel, es: seq<Event>): Panel
    decreases |es|
  {
    if es == [] then s else Run(Step(s, es[0]), es[1..])
  }

  lemma {:induction false} RunAppend(s: Panel, a: seq<Event>, b: seq<Event>)
    ensures Run(s, a + b) == Run(Run(s, a), b)
    decreases |a|
  {
    if a != [] {
      assert (a + b)[1..] == a[1..] + b;
      RunAppend(Step(s, a[0]), a[1..], b);
    } else {
      assert a + b == b;
    }
  }

  /** No clock event in `es` reaches the deadline pending at that point. */
  predicate Quiet(deadline: Option<nat>, es: seq<Event>)
    decreases |es|
  {
    if es == [] then true
    else match es[0]
      case Typed(_, t) => Quiet(Some(t + DebounceDelay), es[1..])
      case Elapsed(t) => deadline.Some? && t < deadline.value && Quiet(deadline, es[1..])
      case Answered(_) => Quiet(deadline, es[1..])
  }

  /** While nothing is due, no lookup is sent, and the last keystroke sets the field and the deadline. */
  lemma {:induction false} QuietSendsNothing(s: Panel, es: seq<Event>)
    requires Quiet(s.deadline, es)
    ensures Run(s, es).lookups == s.lookups
    ensures Run(s, es).deadline == s.deadline || Run(s, es).deadline.Some?
    decreases |es|
  {
    if es != [] {
      QuietSendsNothing(Step(s, es[0]), es[1..]);
    }
  }

  /**
   * A burst of keystrokes, none of them 600 ms after the one before, sends
   * exactly one lookup once the clock passes 600 ms after the last one, and
   * it is for the value the field then holds.
   */
  lemma BurstSendsOneLookup(s: Panel, burst: seq<Event>, v: string, t: nat, later: nat)
    requires Quiet(s.deadline, burst + [Typed(v, t)])
    requires later >= t + DebounceDelay
    ensures Run(s, burst + [Typed(v, t), Elapsed(later)]).lookups == s.lookups + LookupFor(v)
    ensures Run(s, burst + [Typed(v, t), Elapsed(later)]).deadline.None?
  {
    QuietSendsNothing(s, burst + [Typed(v, t)]);
    RunAppend(s, burst + [Typed(v, t)], [Elapsed(later)]);
    assert burst + [Typed(v, t), Elapsed(later)] == (burst + [Typed(v, t)]) + [Elapsed(later)];
    RunAppend(s, burst, [Typed(v, t)]);
  }

  /** Once the timer fired, the clock alone sends nothing more. */
  lemma {:induction false} FiresOnce(s: Panel, ticks: seq<nat>)
    requires s.deadline.None?
    ensures Run(s, seq(|ticks|, i requires 0 <= i < |ticks| => Elapsed(ticks[i]))) == s
  {
    if ticks != [] {
      var es := seq(|ticks|, i requires 0 <= i < |ticks| => Elapsed(ticks[i]));
      assert es[1..] == seq(|ticks[1..]|, i requires 0 <= i < |ticks[1..]| => Elapsed(ticks[1..][i]));
      FiresOnce(s, ticks[1..]);
    }
  }

  /** The expiries of the last answer that resolved, if one did. */
  function LastAnswer(es: seq<Event>): Option<Option<seq<string>>> {
    if es == [] then None
    else
      var e := es[|es| - 1];
      if e.Answered? && e.outcome.Resolved? then Some(e.outcome.data) else LastAnswer(es[..|es| - 1])
  }

  /**
   * The select shows the last answer to arrive, whichever lookup it
   * answers: an earlier lookup answered late overwrites a newer one.
   */
  lemma {:induction false} LastAnswerWins(s: Panel, es: seq<Event>)
    ensures Run(s, es).options == match LastAnswer(es) { case None => s.options case Some(x) => OptionsFor(x) }
  {
    if es != [] {
      var front := es[..|es| - 1];
      assert es == front + [es[|es| - 1]];
      RunAppend(s, front, [es[|es| - 1]]);
      LastAnswerWins(s, front);
    }
  }

  // ---- the panel as the page holds it ----

  /** The select element: its options, which the handlers clear and append to. */
  class ExpirySelect {
    var options: seq<Choice>

    constructor ()
      ensures options == []
    {
      options := [];
    }

    /** `expirySelect.innerHTML = ''`. */
    method Clear()
      modifies this
      ensures options == []
    {
      options := [];
    }

    /** `expirySelect.appendChild(opt)`. */
    method Append(c: Choice)
      modifies this
      ensures options == old(options) + [c]
    {
      options := options + [c];
    }

    /** The `forEach` that appends one option per expiry, marking the selected one. */
    method Fill(expiries: seq<string>, selected: Option<string>)
      modifies this
      ensures options == Listing(expiries, selected)
    {
      Clear();
      for i := 0 to |expiries|
        invariant options == Listing(expiries[..i], selected)
      {
        assert expiries[..i + 1][..i] == expiries[..i];
        Append(Choice(expiries[i], expiries[i], selected == Some(expiries[i])));
      }
      assert expiries[..|expiries|] == expiries;
    }
  }

  /** The panel: the ticker field, the pending timer and the lookups it sent, and the select. */
  class ChainPanel {
    var field: string
    var deadline: Option<nat>
    var lookups: seq<string>
    const select: ExpirySelect

    constructor ()
      ensures field == "" && deadline.None? && lookups == [] && fresh(select) && select.options == []
    {
      field, deadline, lookups := "", None, [];
      select := new ExpirySelect();
    }

    function State(): Panel
      reads this, select
    {
      Panel(field, deadline, lookups, select.options)
    }

    /** The `input` listener: `clearTimeout`, then a new 600 ms timer. */
    method OnInput(value: string, now: nat)
      modifies this
      ensures State() == Step(old(State()), Typed(value, now))
    {
      field := value;
      deadline := Some(now + DebounceDelay);
    }

    /** The clock reaching `now`: a due timer fires, reading the field and sending the lookup. */
    method OnClock(now: nat)
      modifies this
      ensures State() == Step(old(State()), Elapsed(now))
    {
      if deadline.Some? && deadline.value <= now {
        deadline := None;
        var ticker := Upper(Strip(field));
        if |ticker| >= 1 {
          lookups := lookups + [ticker];
        }
      }
    }

    /** A lookup settling: on success the select is cleared and refilled; an error is swallowed. */
    method OnAnswer(outcome: Outcome<Option<seq<string>>>)
      modifies select
      ensures State() == Step(old(State()), Answered(outcome))
    {
      if outcome.Resolved? {
        var expiries := outcome.data;
        if expiries.Some? && |expiries.value| > 0 {
          select.Fill(expiries.value, None);
        } else {
          select.Clear();
          select.Append(Choice("", NoOptionsLabel, false));
        }
      }
    }

    /** The form's submit: the request it sends, if any. */
    method Submit() returns (c: Option<Call>)
      ensures c == ChainSubmit(field, select.options)
    {
      var ticker := Upper(Strip(field));
      var expiry := SelectedValue(select.options);
      if ticker == "" {
        c := None;
      } else {
        c := Some(GetOptionsChain(Given(ticker), Given(expiry)));
      }
    }

    /** The submit's answer: the select lists its expiries with the server's choice marked. */
    method OnChain(expiries: Option<seq<string>>, selected: Option<string>)
      modifies select
      ensures select.options == SubmitOptions(expiries, selected)
      ensures field == old(field) && deadline == old(deadline) && lookups == old(lookups)
    {
      if expiries.Some? {
        select.Fill(expiries.value, selected);
      } else {
        select.Clear();
      }
    }
  }
}
