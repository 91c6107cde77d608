/** The place-search field's state: the selected place, the typed text and
    the option list, and the options effect, which re-runs whenever the
    selected place or the typed text changes. Each run of the effect has a
    generation number; a search callback belonging to an older run (whose
    cleanup has fired) changes nothing, so the most recent search wins. */
module GeocoderState {
  import opened Common
  import opened GeocoderOptions

  /** A search handed to the throttled geocoder by one run of the effect,
      with what that run's callback captured: its generation and the
      selected place at the time. */
  datatype SearchRequest = SearchRequest(input: string, generation: nat, value: Option<Place>)

  class GeocoderField {
    var value: Option<Place>
    var inputValue: string
    var options: seq<Place>
    /** The generation of the latest run of the options effect; the runs
        before it have been cleaned up. */
    var generation: nat

    /** Every search issued so far (the network log). */
    ghost var requests: seq<SearchRequest>
    /** The searches whose callback has already run: a fetch settles once,
        so each search is answered at most once. */
    ghost var answered: set<SearchRequest>

    /** No search belongs to a run that has not happened yet. */
    ghost predicate NoFutureSearch()
      reads this
    {
      forall r :: r in requests ==> r.generation <= generation
    }

    /** Between events: besides the above, a search of the latest run
        captured the current text and selected place. */
    ghost predicate Valid()
      reads this
    {
      && NoFutureSearch()
      && (forall r :: r in answered ==> r in requests)
      && (forall r :: r in requests && r.generation == generation ==> r.input == inputValue && r.value == value)
    }

    /** First render and the mount run of the options effect, with empty
        text and nothing selected. */
    constructor ()
      ensures Valid()
      ensures value == None && inputValue == "" && options == []
      ensures generation == 0 && requests == [] && answered == {}
    {
      value := None;
      inputValue := "";
      options := EmptyInputOptions(None);
      generation := 0;
      requests := [];
      answered := {};
    }

    /** One run of the options effect. The previous run's cleanup fires
        first, so the generation moves on. With empty text the options
        become the selected place alone and nothing is searched; otherwise
        a search is issued and the options wait for its callback. */
    method RunOptionsEffect() returns (search: Option<SearchRequest>)
      requires NoFutureSearch() && (forall r :: r in answered ==> r in requests)
      modifies this`options, this`generation, this`requests
      ensures Valid()
      ensures generation == old(generation) + 1
      ensures forall r :: r in old(requests) ==> r.generation < generation
      ensures inputValue == "" ==>
        search.None? && options == EmptyInputOptions(value) && requests == old(requests)
      ensures inputValue != "" ==>
        && search == Some(SearchRequest(inputValue, generation, value))
        && options == old(options)
        && requests == old(requests) + [search.value]
    {
      generation := generation + 1;
      if inputValue == "" {
        options := EmptyInputOptions(value);
        search := None;
      } else {
        search := Some(SearchRequest(inputValue, generation, value));
        requests := requests + [search.value];
      }
    }

    /** The user edits the text. An unchanged text re-renders nothing;
        a changed one re-runs the options effect. */
    method OnInputChange(text: string) returns (search: Option<SearchRequest>)
      requires Valid()
      modifies this
      ensures Valid()
      ensures inputValue == text && value == old(value)
      ensures answered == old(answered)
      ensures requests == old(requests) + (if search.Some? then [search.value] else [])
      ensures text == old(inputValue) ==>
        search.None? && options == old(options) && generation == old(generation) && requests == old(requests)
      ensures text != old(inputValue) ==>
        && generation == old(generation) + 1
        && (forall r :: r in old(requests) ==> r.generation < generation)
        && (text == "" ==> search.None? && options == EmptyInputOptions(value))
        && (text != "" ==> search == Some(SearchRequest(text, generation, value)) && options == old(options))
    {
      search := None;
      if text != inputValue {
        inputValue := text;
        search := RunOptionsEffect();
      }
    }

    /** The user picks `newValue` (or clears the selection). A picked place
        is put in front of the options and becomes the value; the parent is
        told the new value's coordinates. If the value changed, the options
        effect re-runs, which with empty text replaces the options with the
        picked place alone. */
    method OnChange(newValue: Option<Place>) returns (reported: Option<Coord>, search: Option<SearchRequest>)
      requires Valid()
      modifies this
      ensures Valid()
      ensures value == newValue && inputValue == old(inputValue)
      ensures reported == ReportedCoordinate(newValue)
      ensures answered == old(answered)
      ensures requests == old(requests) + (if search.Some? then [search.value] else [])
      ensures newValue == old(value) ==>
        && search.None? && generation == old(generation) && requests == old(requests)
        && options == OptionsAfterPick(newValue, old(options))
      ensures newValue != old(value) ==>
        && generation == old(generation) + 1
        && (forall r :: r in old(requests) ==> r.generation < generation)
        && (inputValue == "" ==> search.None? && options == EmptyInputOptions(newValue))
        && (inputValue != "" ==>
              && search == Some(SearchRequest(inputValue, generation, newValue))
              && options == OptionsAfterPick(newValue, old(options)))
    {
      options := OptionsAfterPick(newValue, options);
      var changed := newValue != value;
      value := newValue;
      search := None;
      if changed {
        search := RunOptionsEffect();
      }
      reported := ReportedCoordinate(value);
    }

    /** The throttled geocoder calls back for `search` with `results`. Only
        the latest run's callback is still active: it sets the options to the
        place that run captured followed by the results. A callback from a
        cleaned-up run changes nothing. */
    method Deliver(search: SearchRequest, results: Option<seq<Place>>)
      requires Valid() && search in requests && search !in answered
      modifies this`options, this`answered
      ensures Valid()
      ensures answered == old(answered) + {search}
      ensures search.generation == generation ==> options == MergeOptions(value, results)
      ensures search.generation != generation ==> options == old(options)
    {
      var active := search.generation == generation;
      if active {
        options := MergeOptions(search.value, results);
      }
      answered := answered + {search};
    }
  }

  /** Most recent wins: typing "a" then "ab" issues two searches; the answer
      to "ab" sets the options, and the answer to "a" arriving afterwards is
      dropped. */
  method MostRecentSearchWins(p: Place, q: Place) returns (options: seq<Place>)
    ensures options == [q]
  {
    var field := new GeocoderField();
    var s1 := field.OnInputChange("a");
    var s2 := field.OnInputChange("ab");
    assert s1.Some? && s2.Some? && s1.value.generation < s2.value.generation;
    field.Deliver(s2.value, Some([q]));
    assert field.options == [q];
    field.Deliver(s1.value, Some([p]));
    options := field.options;
  }

  /** Picking a place while a search is outstanding: the user types "mar"
      (answered with `[p, q]`), then "market"; before that search answers,
      `p` is picked, which starts a third search, and the autocomplete then
      resets the text to `p`'s label, which starts a fourth. The answer to
      "market" and the third search's answer arrive late and are dropped;
      the fourth search's answer lists the picked place first. */
  method PickThenAnswer(p: Place, q: Place, r: Place) returns (reported: Option<Coord>, options: seq<Place>)
    requires p.name != "" && p.name != "market"
    ensures reported == Some(p.coordinates) && options == [p, r]
  {
    var field := new GeocoderField();
    var s1 := field.OnInputChange("mar");
    field.Deliver(s1.value, Some([p, q]));
    var s2 := field.OnInputChange("market");
    assert field.options == [p, q];
    var s3;
    reported, s3 := field.OnChange(Some(p));
    assert field.options == [p, p, q];
    var s4 := field.OnInputChange(OptionLabel(PlaceOption(p)));
    assert s2.value.generation < s3.value.generation < s4.value.generation;
    field.Deliver(s2.value, Some([q]));
    field.Deliver(s3.value, Some([q, r]));
    assert field.options == [p, p, q];
    field.Deliver(s4.value, Some([r]));
    options := field.options;
  }
}
