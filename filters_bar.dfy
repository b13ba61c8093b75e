/** The filter form of `components/FiltersBar.tsx`: a `FiltersState` and a
    sort value replaced through their setters, a topic toggle, a reset that
    notifies the parent, and a submit that hands both values to it. */
module FiltersBar {
  import opened Wrappers
  import opened ArticleTypes
  import TopicSet

  /** `FiltersState`: every field is optional. */
  datatype FiltersState = FiltersState(
    query: Option<string>,
    sport: Option<string>,
    organisation_type: Option<string>,
    country: Option<string>,
    content_type: Option<string>,
    language: Option<string>,
    topics: Option<seq<string>>)

  /** `{}` */
  const EmptyState: FiltersState := FiltersState(None, None, None, None, None, None, None)

  datatype FilterKey =
    | QueryKey | SportKey | OrganisationTypeKey | CountryKey | ContentTypeKey | LanguageKey | TopicsKey

  /** A key of `FiltersState` together with a value of that key's type: the
      two arguments of `updateField`. */
  datatype FilterField =
    | QueryInput(Option<string>) | SportInput(Option<string>)
    | OrganisationTypeInput(Option<string>) | CountryInput(Option<string>)
    | ContentTypeInput(Option<string>) | LanguageInput(Option<string>)
    | TopicsInput(Option<seq<string>>)

  function KeyOf(f: FilterField): FilterKey {
    match f
    case QueryInput(_) => QueryKey
    case SportInput(_) => SportKey
    case OrganisationTypeInput(_) => OrganisationTypeKey
    case CountryInput(_) => CountryKey
    case ContentTypeInput(_) => ContentTypeKey
    case LanguageInput(_) => LanguageKey
    case TopicsInput(_) => TopicsKey
  }

  /** `state[key]`, as a field. */
  function Read(state: FiltersState, k: FilterKey): (f: FilterField)
    ensures KeyOf(f) == k
  {
    match k
    case QueryKey => QueryInput(state.query)
    case SportKey => SportInput(state.sport)
    case OrganisationTypeKey => OrganisationTypeInput(state.organisation_type)
    case CountryKey => CountryInput(state.country)
    case ContentTypeKey => ContentTypeInput(state.content_type)
    case LanguageKey => LanguageInput(state.language)
    case TopicsKey => TopicsInput(state.topics)
  }

  /** `{ ...prev, [key]: value }` */
  function Updated(state: FiltersState, f: FilterField): FiltersState {
    match f
    case QueryInput(v) => state.(query := v)
    case SportInput(v) => state.(sport := v)
    case OrganisationTypeInput(v) => state.(organisation_type := v)
    case CountryInput(v) => state.(country := v)
    case ContentTypeInput(v) => state.(content_type := v)
    case LanguageInput(v) => state.(language := v)
    case TopicsInput(v) => state.(topics := v)
  }

  /** A state is nothing but the values of its seven fields. */
  lemma FieldsDetermineState(a: FiltersState, b: FiltersState)
    requires forall k :: Read(a, k) == Read(b, k)
    ensures a == b
  {
    assert Read(a, QueryKey) == Read(b, QueryKey);
    assert Read(a, SportKey) == Read(b, SportKey);
    assert Read(a, OrganisationTypeKey) == Read(b, OrganisationTypeKey);
    assert Read(a, CountryKey) == Read(b, CountryKey);
    assert Read(a, ContentTypeKey) == Read(b, ContentTypeKey);
    assert Read(a, LanguageKey) == Read(b, LanguageKey);
    assert Read(a, TopicsKey) == Read(b, TopicsKey);
  }

  /** `updateField(key, value)` gives the named field its new value and
      leaves every other field as it was. */
  lemma UpdateFieldOnly(state: FiltersState, f: FilterField)
    ensures Read(Updated(state, f), KeyOf(f)) == f
    ensures forall k :: k != KeyOf(f) ==> Read(Updated(state, f), k) == Read(state, k)
  {
  }

  /** A facet select's `event.target.value || undefined`. */
  function SelectValue(value: string): (r: Option<string>)
    ensures r.None? <==> value == ""
    ensures r.Some? ==> r.value == value
  {
    if value == "" then None else Some(value)
  }

  /** A select displays `state[key] ?? ""`; choosing the displayed option
      again gives the field back, except for a stored empty string, which the
      select turns into undefined. */
  lemma SelectDisplayed(v: Option<string>)
    ensures SelectValue(v.GetOr("")) == v <==> v != Some("")
  {
  }

  /** The topics after `toggleTopic(topic)`: absent topics count as none. */
  function ToggledTopics(state: FiltersState, topic: string): FiltersState {
    state.(topics := Some(TopicSet.Toggled(state.topics.GetOr([]), topic)))
  }

  /** A toggle flips the topic's membership and keeps every other topic's;
      a second toggle restores the memberships of the first. */
  lemma ToggleMembership(state: FiltersState, topic: string)
    ensures var next := ToggledTopics(state, topic).topics.value;
      && (topic in next <==> topic !in state.topics.GetOr([]))
      && (forall x :: x != topic ==> (x in next <==> x in state.topics.GetOr([])))
      && TopicSet.Distinct(next)
    ensures var twice := ToggledTopics(ToggledTopics(state, topic), topic).topics.value;
      forall x :: x in twice <==> x in state.topics.GetOr([])
  {
    TopicSet.ToggledMembers(state.topics.GetOr([]), topic);
    TopicSet.ToggleTwice(state.topics.GetOr([]), topic);
  }

  /** On a list without duplicates, an absent topic goes to the end and a
      present one is removed with the others keeping their order. */
  lemma ToggleOrder(state: FiltersState, topic: string)
    requires TopicSet.Distinct(state.topics.GetOr([]))
    ensures var ts := state.topics.GetOr([]);
      ToggledTopics(state, topic).topics.value ==
        if topic in ts then TopicSet.Remove(ts, topic) else ts + [topic]
  {
    TopicSet.ToggledOrder(state.topics.GetOr([]), topic);
  }

  /** The field a facet select writes: `key` with the select's value. */
  function FacetInput(k: FilterKey, v: Option<string>): (f: FilterField)
    requires k != QueryKey && k != TopicsKey
    ensures KeyOf(f) == k
  {
    match k
    case SportKey => SportInput(v)
    case OrganisationTypeKey => OrganisationTypeInput(v)
    case CountryKey => CountryInput(v)
    case ContentTypeKey => ContentTypeInput(v)
    case LanguageKey => LanguageInput(v)
  }

  /** The form's state; `resets` counts the calls of the `onReset` callback,
      and `sortProp` is the `sort` prop the `[sort]` effect last saw. */
  class FiltersBarState {
    var state: FiltersState
    var sortValue: SortOption
    var sortProp: SortOption
    var resets: nat

    constructor (initialState: FiltersState, sort: SortOption)
      ensures state == initialState && sortValue == sort && sortProp == sort && resets == 0
    {
      state := initialState;
      sortValue := sort;
      sortProp := sort;
      resets := 0;
    }

    /** The `[initialState]` effect, run when the parent hands over a new
        `initialState` object: the filters are replaced, a pending sort choice
        is kept. */
    method ReceiveInitialState(initialState: FiltersState)
      modifies this
      ensures state == initialState
      ensures sortValue == old(sortValue) && sortProp == old(sortProp) && resets == old(resets)
    {
      state := initialState;
    }

    /** The `[sort]` effect: it runs, and replaces the sort value, only when the
        `sort` prop differs from the one it last saw. */
    method ReceiveSort(sort: SortOption)
      modifies this
      ensures sortProp == sort
      ensures sortValue == if sort != old(sortProp) then sort else old(sortValue)
      ensures state == old(state) && resets == old(resets)
    {
      if sort != sortProp {
        sortValue := sort;
      }
      sortProp := sort;
    }

    /** `updateField(key, value)` */
    method UpdateField(f: FilterField)
      modifies this
      ensures state == Updated(old(state), f)
      ensures sortValue == old(sortValue) && sortProp == old(sortProp) && resets == old(resets)
    {
      state := Updated(state, f);
    }

    /** The `onChange` of a facet select: the chosen option, or nothing for
        the empty option, becomes that facet's value. */
    method ChooseOption(k: FilterKey, value: string)
      requires k != QueryKey && k != TopicsKey
      modifies this
      ensures state == Updated(old(state), FacetInput(k, SelectValue(value)))
      ensures value != "" ==> Read(state, k) == FacetInput(k, Some(value))
      ensures value == "" ==> Read(state, k) == Read(EmptyState, k)
      ensures forall other :: other != k ==> Read(state, other) == Read(old(state), other)
      ensures sortValue == old(sortValue) && sortProp == old(sortProp) && resets == old(resets)
    {
      var f := FacetInput(k, SelectValue(value));
      UpdateFieldOnly(state, f);
      UpdateField(f);
    }

    /** `toggleTopic(topic)` */
    method ToggleTopic(topic: string)
      modifies this
      ensures state == ToggledTopics(old(state), topic)
      ensures sortValue == old(sortValue) && sortProp == old(sortProp) && resets == old(resets)
    {
      var next := TopicSet.ToggleTopic(state.topics.GetOr([]), topic);
      state := state.(topics := Some(next));
    }

    /** The sort select's `onChange`. */
    method ChooseSort(sort: SortOption)
      modifies this
      ensures state == old(state) && sortValue == sort && sortProp == old(sortProp) && resets == old(resets)
    {
      sortValue := sort;
    }

    /** `handleReset`: every filter cleared, the sort back to `date_desc`,
        then `onReset` called once. */
    method HandleReset()
      modifies this
      ensures state == EmptyState && sortValue == DateDesc && sortProp == old(sortProp)
      ensures resets == old(resets) + 1
    {
      state := EmptyState;
      sortValue := DateDesc;
      resets := resets + 1;
    }

    /** `handleSubmit`: the arguments of `onApply`, the form unchanged. */
    method HandleSubmit() returns (applied: FiltersState, appliedSort: SortOption)
      ensures applied == state && appliedSort == sortValue
    {
      applied := state;
      appliedSort := sortValue;
    }
  }

  /** Choosing a sort without applying it, then changing page: the page change
      hands over a new filters object but the same sort, so the filters are
      reset while the pending sort choice survives. */
  method PendingSortSurvivesPageChange(initialState: FiltersState, sort: SortOption, pending: SortOption)
    returns (shown: SortOption)
    ensures shown == pending
  {
    var form := new FiltersBarState(initialState, sort);
    form.ChooseSort(pending);
    form.ReceiveInitialState(initialState);
    form.ReceiveSort(sort);
    shown := form.sortValue;
  }
}
