/** The editor session: the configuration and the current tier, changed by
    three kinds of event (a field edit, a tier choice, a confirmed reset),
    and the two views derived from them on every change: the raw exported
    code and the live preview. */
module App {
  import opened Wrappers
  import opened Site
  import opened Difficulty
  import opened Export
  import opened Preview

  datatype Event =
    | Edit(field: Field, value: string)
    | ChooseTier(tier: Tier)
    | ConfirmReset

  datatype State = State(site: SiteData, difficulty: Tier)

  /** A session starts from the loaded configuration at the basic tier. */
  function Start(saved: Option<string>, parse: string -> Option<SiteData>): (s: State)
    ensures s.difficulty == Basic
    ensures s.site == Load(saved, parse)
    ensures saved == None ==> s.site == Defaults()
  {
    State(Load(saved, parse), Basic)
  }

  /** One event. An edit replaces one field, a tier choice changes only the
      tier, a confirmed reset restores every field and keeps the tier. */
  function Step(s: State, e: Event): (r: State)
    ensures r.difficulty == if e.ChooseTier? then e.tier else s.difficulty
    ensures e.ChooseTier? ==> r.site == s.site
    ensures e.ConfirmReset? ==> forall f :: Get(r.site, f) == Get(Defaults(), f)
    ensures e.Edit? ==> Get(r.site, e.field) == e.value
    ensures e.Edit? ==> forall f :: f != e.field ==> Get(r.site, f) == Get(s.site, f)
  {
    match e
    case Edit(f, v) => s.(site := Set(s.site, f, v))
    case ChooseTier(t) => s.(difficulty := t)
    case ConfirmReset => s.(site := Reset(s.site))
  }

  /** The events in order. Only a tier choice moves the tier, and only an
      edit or a reset changes the record. */
  function Run(s: State, es: seq<Event>): (r: State)
    ensures (forall i :: 0 <= i < |es| ==> !es[i].ChooseTier?) ==> r.difficulty == s.difficulty
    ensures (forall i :: 0 <= i < |es| ==> es[i].ChooseTier?) ==> r.site == s.site
    decreases |es|
  {
    if |es| == 0 then s else Run(Step(s, es[0]), es[1..])
  }

  /** The text of the raw-code view. */
  function RawCode(s: State): string {
    Document(s.site)
  }

  /** The live preview at the session's tier. */
  function LivePreview(s: State): Styles {
    Render(s.site, s.difficulty)
  }

  /** An event that may change field `f`. */
  predicate Touches(e: Event, f: Field) {
    e.ConfirmReset? || (e.Edit? && e.field == f)
  }

  lemma {:induction false} RunAppend(s: State, a: seq<Event>, b: seq<Event>)
    ensures Run(s, a + b) == Run(Run(s, a), b)
    decreases |a|
  {
    if |a| == 0 {
      assert a + b == b;
    } else {
      assert (a + b)[0] == a[0];
      assert (a + b)[1..] == a[1..] + b;
      RunAppend(Step(s, a[0]), a[1..], b);
    }
  }

  /** The exported code is the same at every tier. */
  lemma RawCodeIgnoresTier(c: SiteData, t1: Tier, t2: Tier)
    ensures RawCode(State(c, t1)) == RawCode(State(c, t2))
  {
  }

  /** Choosing a tier never changes the exported code. */
  lemma ChoosingTierKeepsRawCode(s: State, t: Tier)
    ensures RawCode(Step(s, ChooseTier(t))) == RawCode(s)
  {
  }

  /** Switching to any tier and back loses nothing: the stored values
      reappear unchanged. */
  lemma LoweringTierIsReversible(s: State, t: Tier)
    ensures LivePreview(Run(s, [ChooseTier(t), ChooseTier(s.difficulty)])) == LivePreview(s)
  {
    var low := Step(s, ChooseTier(t));
    assert [ChooseTier(t), ChooseTier(s.difficulty)][1..] == [ChooseTier(s.difficulty)];
    assert Run(s, [ChooseTier(t), ChooseTier(s.difficulty)]) == Run(low, [ChooseTier(s.difficulty)]);
    assert Run(low, [ChooseTier(s.difficulty)]) == Run(Step(low, ChooseTier(s.difficulty)), []);
    assert Step(low, ChooseTier(s.difficulty)) == s;
  }

  /** A field no event touches keeps its value through the whole run. */
  lemma {:induction false} UntouchedFieldKept(s: State, es: seq<Event>, f: Field)
    requires forall i :: 0 <= i < |es| ==> !Touches(es[i], f)
    ensures Get(Run(s, es).site, f) == Get(s.site, f)
    decreases |es|
  {
    if |es| > 0 {
      UntouchedFieldKept(Step(s, es[0]), es[1..], f);
    }
  }

  /** An edit is what the field holds at the end unless a later event
      touches the same field. */
  lemma LastEditWins(s: State, f: Field, v: string, es: seq<Event>)
    requires forall i :: 0 <= i < |es| ==> !Touches(es[i], f)
    ensures Get(Run(s, [Edit(f, v)] + es).site, f) == v
  {
    RunAppend(s, [Edit(f, v)], es);
    assert Run(s, [Edit(f, v)]) == Step(s, Edit(f, v));
    UntouchedFieldKept(Step(s, Edit(f, v)), es, f);
  }

  /** Whatever happened before, a confirmed reset ends in the defaults and
      exports the default document. */
  lemma ResetAfterAnything(s: State, es: seq<Event>)
    ensures Run(s, es + [ConfirmReset]).site == Defaults()
    ensures RawCode(Run(s, es + [ConfirmReset])) == Document(Defaults())
  {
    RunAppend(s, es, [ConfirmReset]);
  }
}
