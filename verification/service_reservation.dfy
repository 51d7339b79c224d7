/**
 * The service-reservation page: the list of services offered across all business profiles,
 * and the option checkboxes the customer ticks and unticks.
 */
module ServiceReservation {
  import opened Wrappers
  import opened Seqs
  import opened Catalog

  function NotEqual(option: string): string -> bool
  {
    (item: string) => item != option
  }

  /** `handleOptionChange`: remove every copy of a selected option, or append an unselected one. */
  function ToggleOption(selected: seq<string>, option: string): (r: seq<string>)
    ensures option in r <==> option !in selected
    ensures forall x :: x != option ==> (x in r <==> x in selected)
    ensures option !in selected ==> r == selected + [option]
  {
    if option in selected then
      FilterMembers(NotEqual(option), selected);
      Filter(NotEqual(option), selected)
    else selected + [option]
  }

  predicate Distinct(xs: seq<string>)
  {
    forall i, j :: 0 <= i < j < |xs| ==> xs[i] != xs[j]
  }

  /** The other options keep their relative order. */
  lemma ToggleKeepsOthers(selected: seq<string>, option: string)
    ensures Filter(NotEqual(option), ToggleOption(selected, option)) == Filter(NotEqual(option), selected)
  {
    var p := NotEqual(option);
    if option in selected {
      FilterIdempotent(p, selected);
    } else {
      FilterConcat(p, selected, [option]);
      assert Filter(p, [option]) == [] by {
        assert [option][1..] == [];
      }
    }
  }

  /** Ticking an unselected option and unticking it again restores the selection. */
  lemma ToggleAbsentTwice(selected: seq<string>, option: string)
    requires option !in selected
    ensures ToggleOption(ToggleOption(selected, option), option) == selected
  {
    var p := NotEqual(option);
    FilterConcat(p, selected, [option]);
    FilterKeepsAll(p, selected);
    assert Filter(p, [option]) == [] by {
      assert [option][1..] == [];
    }
  }

  lemma {:induction false} FilterDistinct(p: string -> bool, xs: seq<string>)
    requires Distinct(xs)
    ensures Distinct(Filter(p, xs))
  {
    if xs != [] {
      FilterDistinct(p, xs[1..]);
      FilterMembership(p, xs[1..], xs[0]);
    }
  }

  /** A selection without duplicates keeps none after a toggle. */
  lemma TogglePreservesDistinct(selected: seq<string>, option: string)
    requires Distinct(selected)
    ensures Distinct(ToggleOption(selected, option))
  {
    if option in selected {
      FilterDistinct(NotEqual(option), selected);
    }
  }

  /** `Object.keys` succeeds on every profile: none has a null `services`. */
  predicate AllHaveServices(profiles: seq<BusinessProfile>)
  {
    forall p :: p in profiles ==> p.services.Some?
  }

  /** `data.flatMap(profile => Object.keys(profile.services))`, when no profile makes it throw. */
  function AllServiceKeys(profiles: seq<BusinessProfile>): (r: seq<string>)
    requires AllHaveServices(profiles)
    ensures forall p, key :: p in profiles && key in ServiceKeys(p) ==> key in r
  {
    if profiles == [] then []
    else
      assert forall p :: p in profiles[1..] ==> p in profiles;
      ServiceKeys(profiles[0]) + AllServiceKeys(profiles[1..])
  }

  /**
   * `[...new Set(xs)]`: a `Set` iterates in insertion order and ignores a value it already
   * holds, so each value stays where it first occurred.
   */
  function Dedup(xs: seq<string>): (r: seq<string>)
    ensures |r| <= |xs|
    ensures forall x :: x in r <==> x in xs
  {
    if xs == [] then []
    else
      assert xs == xs[..|xs| - 1] + [xs[|xs| - 1]];
      var seen := Dedup(xs[..|xs| - 1]);
      if xs[|xs| - 1] in seen then seen else seen + [xs[|xs| - 1]]
  }

  /** The position of the first occurrence of `x` in `xs`. */
  function FirstIndex(xs: seq<string>, x: string): (k: nat)
    requires x in xs
    ensures k < |xs| && xs[k] == x && x !in xs[..k]
  {
    if xs[0] == x then 0 else 1 + FirstIndex(xs[1..], x)
  }

  lemma {:induction false} FirstIndexInPrefix(xs: seq<string>, x: string, n: nat)
    requires n <= |xs| && x in xs[..n]
    ensures FirstIndex(xs[..n], x) == FirstIndex(xs, x)
  {
    if xs[0] != x {
      assert xs[..n][1..] == xs[1..][..n - 1];
      FirstIndexInPrefix(xs[1..], x, n - 1);
    }
  }

  /**
   * The de-duplicated list holds every value of `xs` exactly once, and lists them by
   * position of first occurrence.
   */
  lemma {:induction false} DedupSpec(xs: seq<string>)
    ensures Distinct(Dedup(xs))
    ensures forall x :: x in Dedup(xs) <==> x in xs
    ensures forall i, j :: 0 <= i < j < |Dedup(xs)| ==>
      FirstIndex(xs, Dedup(xs)[i]) < FirstIndex(xs, Dedup(xs)[j])
  {
    if xs != [] {
      var n := |xs| - 1;
      var init, last := xs[..n], xs[n];
      DedupSpec(init);
      assert xs == init + [last];
      var seen := Dedup(init);
      forall x | x in seen ensures FirstIndex(xs, x) == FirstIndex(init, x) {
        FirstIndexInPrefix(xs, x, n);
      }
      if last !in seen {
        assert FirstIndex(xs, last) == n;
      }
    }
  }

  /** The sample list the `catch` of `fetchServices` shows. */
  const SampleServices: seq<string> := ["洗車サービス", "エステサービス", "家事代行サービス"]

  /**
   * The de-duplicated service keys of the rows read, or `None` when `Object.keys` throws on
   * a profile whose `services` is null.
   */
  function ServiceList(profiles: seq<BusinessProfile>): (r: Option<seq<string>>)
    ensures r.None? <==> exists p :: p in profiles && p.services.None?
  {
    if AllHaveServices(profiles) then Some(Dedup(AllServiceKeys(profiles))) else None
  }

  /**
   * When no profile has a null `services`, the services list holds a key exactly when some
   * profile offers it, and holds it once.
   */
  lemma ServiceListSpec(profiles: seq<BusinessProfile>, key: string)
    ensures ServiceList(profiles).Some? ==>
      && (key in ServiceList(profiles).value <==> exists p :: p in profiles && key in ServiceKeys(p))
      && Distinct(ServiceList(profiles).value)
  {
    if AllHaveServices(profiles) {
      DedupSpec(AllServiceKeys(profiles));
      if key in AllServiceKeys(profiles) {
        KeyOrigin(profiles, key);
      }
    }
  }

  lemma {:induction false} KeyOrigin(profiles: seq<BusinessProfile>, key: string)
    requires AllHaveServices(profiles) && key in AllServiceKeys(profiles)
    ensures exists p :: p in profiles && key in ServiceKeys(p)
  {
    if key !in ServiceKeys(profiles[0]) {
      KeyOrigin(profiles[1..], key);
      var p :| p in profiles[1..] && key in ServiceKeys(p);
      assert p in profiles;
    }
  }

  /** The sample list the `catch` of `fetchOptions` shows. */
  const SampleOptions: seq<string> := ["オプション1", "オプション2", "オプション3"]

  /** The page's state, as its `useState` hooks hold it. */
  class ReservationPage {
    var selectedService: string
    var selectedDate: string
    var selectedOptions: seq<string>
    var services: seq<string>
    var options: seq<string>

    /** No option is ticked twice. */
    ghost predicate Valid()
      reads this
    {
      Distinct(selectedOptions)
    }

    constructor ()
      ensures Valid()
      ensures selectedService == "" && selectedDate == "" && selectedOptions == []
      ensures services == [] && options == []
    {
      selectedService, selectedDate := "", "";
      selectedOptions, services, options := [], [], [];
    }

    /**
     * `fetchServices` after a successful read: rows read become the de-duplicated service
     * list; a `null` result leaves the list as it was; a profile with a null `services`
     * makes `Object.keys` throw, and the `catch` shows the sample list.
     */
    method LoadServices(data: Option<seq<BusinessProfile>>)
      requires Valid()
      modifies this`services
      ensures Valid()
      ensures data.Some? && ServiceList(data.value).Some? ==> services == ServiceList(data.value).value
      ensures data.Some? && ServiceList(data.value).None? ==> services == SampleServices
      ensures data.None? ==> services == old(services)
    {
      if data.Some? {
        var list := ServiceList(data.value);
        if list.Some? {
          services := list.value;
        } else {
          services := SampleServices;
        }
      }
    }

    /** `fetchServices` when the read itself fails: the `catch` shows the sample list. */
    method FetchServicesFailed()
      requires Valid()
      modifies this`services
      ensures Valid()
      ensures services == SampleServices
    {
      services := SampleServices;
    }

    /** `fetchOptions` after a successful read: the names read, or no change for `null`. */
    method LoadOptions(data: Option<seq<string>>)
      requires Valid()
      modifies this`options
      ensures Valid()
      ensures data.Some? ==> options == data.value
      ensures data.None? ==> options == old(options)
    {
      if data.Some? {
        options := data.value;
      }
    }

    /** `fetchOptions` when the read fails: the `catch` shows the sample list. */
    method FetchOptionsFailed()
      requires Valid()
      modifies this`options
      ensures Valid()
      ensures options == SampleOptions
    {
      options := SampleOptions;
    }

    method HandleServiceChange(value: string)
      requires Valid()
      modifies this`selectedService
      ensures Valid()
      ensures selectedService == value
    {
      selectedService := value;
    }

    method HandleDateChange(value: string)
      requires Valid()
      modifies this`selectedDate
      ensures Valid()
      ensures selectedDate == value
    {
      selectedDate := value;
    }

    /** `handleOptionChange`. */
    method HandleOptionChange(option: string)
      requires Valid()
      modifies this`selectedOptions
      ensures Valid()
      ensures selectedOptions == ToggleOption(old(selectedOptions), option)
    {
      TogglePreservesDistinct(selectedOptions, option);
      selectedOptions := ToggleOption(selectedOptions, option);
    }
  }
}
