/**
 * What the three matching-dataset unmarshallers share: the casts of attribute
 * values to matching-dataset entries, the helper loops of the abstract base
 * class, and the fold of a first attribute statement into a builder, with its
 * general laws (append in order, last write wins, the first failure aborts).
 */
module MatchingDatasetUnmarshallerBase {
  import opened Wrappers
  import opened SamlObjects
  import opened MatchingDatasets
  import opened MatchingDatasetBuilders

  // ---------------------------------------------------------------------------
  // Attribute values
  // ---------------------------------------------------------------------------

  /** The entries of a list of values, cast one by one; one failing cast fails the whole list. */
  function CastEach<T>(vs: seq<AttributeValue>, cast: AttributeValue -> Option<T>): (r: Result<seq<T>, Failure>)
    ensures r.Success? <==> forall i :: 0 <= i < |vs| ==> cast(vs[i]).Some?
    ensures r.Success? ==> |r.value| == |vs|
    ensures r.Success? ==> forall i :: 0 <= i < |vs| ==> r.value[i] == cast(vs[i]).value
    ensures r.Failure? ==> r.error == ClassCast
  {
    if vs == [] then Success([])
    else
      var init, last := vs[..|vs| - 1], vs[|vs| - 1];
      assert forall i :: 0 <= i < |init| ==> init[i] == vs[i];
      match CastEach(init, cast)
      case Failure(e) => Failure(e)
      case Success(xs) =>
        match cast(last)
        case None => Failure(ClassCast)
        case Some(x) => Success(xs + [x])
  }

  /** The entries of an attribute, or none when one of its values is of the wrong type. */
  function ValuesOrEmpty<T>(r: Result<seq<T>, Failure>): seq<T>
  {
    if r.Success? then r.value else []
  }

  /**
   * A birthdate entry: any string-based MDS value, its text parsed as a date,
   * with its from, to and verified copied.
   */
  function BirthdateEntry(parseDate: string -> LocalDate): AttributeValue -> Option<SimpleMdsValue<LocalDate>>
  {
    (v: AttributeValue) => if v.StringBasedMds? then Some(SimpleMdsValue(parseDate(v.value), v.from, v.to, v.verified)) else None
  }

  /** A personal-identifier entry: no from or to, and verified. */
  function PersonalIdEntry(v: AttributeValue): Option<SimpleMdsValue<string>>
  {
    if v.PersonIdentifier? then Some(SimpleMdsValue(v.personIdentifier, None, None, true)) else None
  }

  /** A person-name entry: the PersonName's value, from, to and verified, unchanged. */
  function PersonNameEntry(v: AttributeValue): Option<SimpleMdsValue<string>>
  {
    if v.StringBasedMds? && v.element == PersonNameElement then Some(SimpleMdsValue(v.value, v.from, v.to, v.verified)) else None
  }

  /** `getBirthdates` */
  method GetBirthdates(c: Collaborators, a: Attribute) returns (r: Result<seq<SimpleMdsValue<LocalDate>>, Failure>)
    ensures r == CastEach(a.values, BirthdateEntry(c.parseDate))
    ensures r.Success? ==> |r.value| == |a.values| && forall i :: 0 <= i < |a.values| ==>
      a.values[i].StringBasedMds? &&
      r.value[i] == SimpleMdsValue(c.parseDate(a.values[i].value), a.values[i].from, a.values[i].to, a.values[i].verified)
  {
    ghost var cast := BirthdateEntry(c.parseDate);
    var birthDates: seq<SimpleMdsValue<LocalDate>> := [];
    for i := 0 to |a.values|
      invariant CastEach(a.values[..i], cast) == Success(birthDates)
    {
      assert a.values[..i + 1][..i] == a.values[..i];
      match a.values[i]
      case StringBasedMds(_, value, from, to, verified) =>
        birthDates := birthDates + [SimpleMdsValue(c.parseDate(value), from, to, verified)];
      case _ =>
        assert cast(a.values[i]).None?;
        return Failure(ClassCast);
    }
    assert a.values[..|a.values|] == a.values;
    return Success(birthDates);
  }

  /** `getPersonalIds` */
  method GetPersonalIds(a: Attribute) returns (r: Result<seq<SimpleMdsValue<string>>, Failure>)
    ensures r == CastEach(a.values, PersonalIdEntry)
    ensures r.Success? ==> |r.value| == |a.values| && forall i :: 0 <= i < |a.values| ==>
      a.values[i].PersonIdentifier? && r.value[i] == SimpleMdsValue(a.values[i].personIdentifier, None, None, true)
  {
    var pids: seq<SimpleMdsValue<string>> := [];
    for i := 0 to |a.values|
      invariant CastEach(a.values[..i], PersonalIdEntry) == Success(pids)
    {
      assert a.values[..i + 1][..i] == a.values[..i];
      match a.values[i]
      case PersonIdentifier(id) =>
        pids := pids + [SimpleMdsValue(id, None, None, true)];
      case _ =>
        return Failure(ClassCast);
    }
    assert a.values[..|a.values|] == a.values;
    return Success(pids);
  }

  /** `transformPersonNameAttribute` */
  method TransformPersonNameAttribute(a: Attribute) returns (r: Result<seq<SimpleMdsValue<string>>, Failure>)
    ensures r == CastEach(a.values, PersonNameEntry)
    ensures r.Success? ==> |r.value| == |a.values| && forall i :: 0 <= i < |a.values| ==>
      a.values[i].StringBasedMds? && a.values[i].element == PersonNameElement &&
      r.value[i] == SimpleMdsValue(a.values[i].value, a.values[i].from, a.values[i].to, a.values[i].verified)
  {
    var personNames: seq<SimpleMdsValue<string>> := [];
    for i := 0 to |a.values|
      invariant CastEach(a.values[..i], PersonNameEntry) == Success(personNames)
    {
      assert a.values[..i + 1][..i] == a.values[..i];
      match a.values[i]
      case StringBasedMds(PersonNameElement, value, from, to, verified) =>
        personNames := personNames + [SimpleMdsValue(value, from, to, verified)];
      case _ =>
        return Failure(ClassCast);
    }
    assert a.values[..|a.values|] == a.values;
    return Success(personNames);
  }

  /**
   * The gender entry of a Gender attribute: its first value, which must be a
   * Gender element, mapped through `Gender.fromString` with from, to and
   * verified copied.
   */
  function GenderEntry(c: Collaborators, a: Attribute): Result<SimpleMdsValue<Gender>, Failure>
  {
    if |a.values| == 0 then Failure(IndexOutOfBounds)
    else
      var v := a.values[0];
      if v.StringBasedMds? && v.element == GenderElement then
        Success(SimpleMdsValue(c.genderFromString(v.value), v.from, v.to, v.verified))
      else Failure(ClassCast)
  }

  /** What a person-name attribute contributes: its entries, or nothing when a value is not a PersonName. */
  function PersonNamesOf(a: Attribute): seq<SimpleMdsValue<string>>
  {
    ValuesOrEmpty(CastEach(a.values, PersonNameEntry))
  }

  /** What a personal-identifier attribute contributes. */
  function PersonalIdsOf(a: Attribute): seq<SimpleMdsValue<string>>
  {
    ValuesOrEmpty(CastEach(a.values, PersonalIdEntry))
  }

  /** What a date-of-birth attribute contributes, given how dates are parsed. */
  function BirthdatesOf(parseDate: string -> LocalDate): Attribute -> seq<SimpleMdsValue<LocalDate>>
  {
    (a: Attribute) => ValuesOrEmpty(CastEach(a.values, BirthdateEntry(parseDate)))
  }

  /** The gender a Gender attribute sets, or none when it has no usable first value. */
  function GenderOfAttribute(c: Collaborators): Attribute -> Option<SimpleMdsValue<Gender>>
  {
    (a: Attribute) => if GenderEntry(c, a).Success? then Some(GenderEntry(c, a).value) else None
  }

  /** The message of the exception an unsupported attribute name raises. */
  function UnsupportedMessage(name: string, profile: string): string
  {
    "Attribute " + name + " is not a supported " + profile + "Matching Dataset attribute."
  }

  // ---------------------------------------------------------------------------
  // The fold over the attributes of the first attribute statement
  // ---------------------------------------------------------------------------

  /**
   * Feeding attributes to a builder in order: each attribute is decoded into the
   * builder call it causes, and the first attribute that throws aborts the
   * whole fold with its exception.
   */
  function Fold(decode: Attribute -> Result<Mutation, Failure>, ds: MatchingDataset, attrs: seq<Attribute>): Result<MatchingDataset, Failure>
    decreases attrs
  {
    if attrs == [] then Success(ds)
    else
      match decode(attrs[0])
      case Failure(e) => Failure(e)
      case Success(m) => Fold(decode, Apply(ds, m), attrs[1..])
  }

  /** The fold fails exactly when some attribute fails, and then with the first such attribute's exception. */
  lemma {:induction false} FoldFails(decode: Attribute -> Result<Mutation, Failure>, ds: MatchingDataset, attrs: seq<Attribute>)
    ensures Fold(decode, ds, attrs).Success? <==> forall i :: 0 <= i < |attrs| ==> decode(attrs[i]).Success?
    ensures Fold(decode, ds, attrs).Failure? ==>
      exists i :: 0 <= i < |attrs| && decode(attrs[i]).Failure? && Fold(decode, ds, attrs).error == decode(attrs[i]).error &&
        forall k :: 0 <= k < i ==> decode(attrs[k]).Success?
    decreases attrs
  {
    if attrs != [] {
      assert forall i :: 1 <= i < |attrs| ==> attrs[1..][i - 1] == attrs[i];
      match decode(attrs[0])
      case Failure(e) =>
        assert decode(attrs[0]).Failure?;
      case Success(m) =>
        FoldFails(decode, Apply(ds, m), attrs[1..]);
        if Fold(decode, ds, attrs).Failure? {
          var i :| 0 <= i < |attrs[1..]| && decode(attrs[1..][i]).Failure? &&
            Fold(decode, Apply(ds, m), attrs[1..]).error == decode(attrs[1..][i]).error &&
            forall k :: 0 <= k < i ==> decode(attrs[1..][k]).Success?;
          assert decode(attrs[i + 1]).Failure?;
          assert forall k :: 0 <= k < i + 1 ==> decode(attrs[k]).Success?;
        }
    }
  }

  /** A per-field view of the dataset that every mutation extends by what it adds. */
  ghost predicate AppendLaw<X>(get: MatchingDataset -> seq<X>, added: Mutation -> seq<X>)
  {
    forall ds, m :: get(Apply(ds, m)) == get(ds) + added(m)
  }

  /** A per-field view of the dataset that every mutation either overwrites or leaves alone. */
  ghost predicate OverwriteLaw<X>(get: MatchingDataset -> X, written: Mutation -> Option<X>)
  {
    forall ds, m :: get(Apply(ds, m)) == if written(m).Some? then written(m).value else get(ds)
  }

  /** What the attributes add to one field, in attribute order. */
  function Gathered<X>(decode: Attribute -> Result<Mutation, Failure>, added: Mutation -> seq<X>, attrs: seq<Attribute>): seq<X>
  {
    if attrs == [] then []
    else
      (if decode(attrs[0]).Success? then added(decode(attrs[0]).value) else []) + Gathered(decode, added, attrs[1..])
  }

  /** What one field holds after the attributes, starting from `current`. */
  function LastWritten<X>(decode: Attribute -> Result<Mutation, Failure>, written: Mutation -> Option<X>, current: X, attrs: seq<Attribute>): X
    decreases attrs
  {
    if attrs == [] then current
    else
      var next := if decode(attrs[0]).Success? && written(decode(attrs[0]).value).Some?
        then written(decode(attrs[0]).value).value else current;
      LastWritten(decode, written, next, attrs[1..])
  }

  /** Appending fields collect every attribute's contribution, in attribute order. */
  lemma {:induction false} FoldGathers<X>(decode: Attribute -> Result<Mutation, Failure>, get: MatchingDataset -> seq<X>, added: Mutation -> seq<X>, ds: MatchingDataset, attrs: seq<Attribute>)
    requires AppendLaw(get, added)
    requires Fold(decode, ds, attrs).Success?
    ensures get(Fold(decode, ds, attrs).value) == get(ds) + Gathered(decode, added, attrs)
    decreases attrs
  {
    if attrs != [] {
      var m := decode(attrs[0]).value;
      FoldGathers(decode, get, added, Apply(ds, m), attrs[1..]);
      assert get(Apply(ds, m)) == get(ds) + added(m);
    }
  }

  /** Overwritten fields hold what the last writing attribute wrote. */
  lemma {:induction false} FoldLastWrite<X>(decode: Attribute -> Result<Mutation, Failure>, get: MatchingDataset -> X, written: Mutation -> Option<X>, ds: MatchingDataset, attrs: seq<Attribute>)
    requires OverwriteLaw(get, written)
    requires Fold(decode, ds, attrs).Success?
    ensures get(Fold(decode, ds, attrs).value) == LastWritten(decode, written, get(ds), attrs)
    decreases attrs
  {
    if attrs != [] {
      var m := decode(attrs[0]).value;
      FoldLastWrite(decode, get, written, Apply(ds, m), attrs[1..]);
      assert get(Apply(ds, m)) == if written(m).Some? then written(m).value else get(ds);
    }
  }

  // ---------------------------------------------------------------------------
  // Reference definitions in terms of attribute names
  // ---------------------------------------------------------------------------

  /** The contributions of the attributes with the given name, in attribute order. */
  function Collected<X>(attrs: seq<Attribute>, name: string, contribution: Attribute -> seq<X>): seq<X>
  {
    if attrs == [] then []
    else (if attrs[0].name == name then contribution(attrs[0]) else []) + Collected(attrs[1..], name, contribution)
  }

  /** The position of the last attribute with the given name. */
  function LastNamed(attrs: seq<Attribute>, name: string): (r: Option<nat>)
    ensures r.None? <==> forall k :: 0 <= k < |attrs| ==> attrs[k].name != name
    ensures r.Some? ==> r.value < |attrs| && attrs[r.value].name == name
    ensures r.Some? ==> forall k :: r.value < k < |attrs| ==> attrs[k].name != name
  {
    if attrs == [] then None
    else
      assert forall k :: 1 <= k < |attrs| ==> attrs[1..][k - 1] == attrs[k];
      match LastNamed(attrs[1..], name)
      case Some(i) => Some(i + 1)
      case None => if attrs[0].name == name then Some(0) else None
  }

  /** The position of the first attribute with the given name. */
  function FirstNamed(attrs: seq<Attribute>, name: string): (r: Option<nat>)
    ensures r.None? <==> forall k :: 0 <= k < |attrs| ==> attrs[k].name != name
    ensures r.Some? ==> r.value < |attrs| && attrs[r.value].name == name
    ensures r.Some? ==> forall k :: 0 <= k < r.value ==> attrs[k].name != name
  {
    if attrs == [] then None
    else if attrs[0].name == name then Some(0)
    else
      assert forall k :: 1 <= k < |attrs| ==> attrs[1..][k - 1] == attrs[k];
      match FirstNamed(attrs[1..], name)
      case Some(i) => Some(i + 1)
      case None => None
  }

  /**
   * When only attributes of one name add to a field, and each adds its
   * contribution, the field gathers the contributions of exactly the
   * attributes of that name.
   */
  lemma {:induction false} GatheredByName<X>(decode: Attribute -> Result<Mutation, Failure>, added: Mutation -> seq<X>, name: string, contribution: Attribute -> seq<X>, attrs: seq<Attribute>)
    requires forall a :: decode(a).Success? ==> added(decode(a).value) == if a.name == name then contribution(a) else []
    requires forall i :: 0 <= i < |attrs| ==> decode(attrs[i]).Success?
    ensures Gathered(decode, added, attrs) == Collected(attrs, name, contribution)
  {
    if attrs != [] {
      assert forall i :: 1 <= i < |attrs| ==> attrs[1..][i - 1] == attrs[i];
      GatheredByName(decode, added, name, contribution, attrs[1..]);
    }
  }

  /**
   * When only attributes of one name write a field, and each writes its
   * value, the field holds the value of the last attribute of that name, or
   * what it held before when there is none.
   */
  lemma {:induction false} LastWrittenByName<X>(decode: Attribute -> Result<Mutation, Failure>, written: Mutation -> Option<X>, name: string, valueOf: Attribute -> X, current: X, attrs: seq<Attribute>)
    requires forall a :: decode(a).Success? ==> written(decode(a).value) == if a.name == name then Some(valueOf(a)) else None
    requires forall i :: 0 <= i < |attrs| ==> decode(attrs[i]).Success?
    ensures LastWritten(decode, written, current, attrs) ==
      match LastNamed(attrs, name) case None => current case Some(i) => valueOf(attrs[i])
    decreases attrs
  {
    if attrs != [] {
      assert forall i :: 1 <= i < |attrs| ==> attrs[1..][i - 1] == attrs[i];
      var next := if attrs[0].name == name then valueOf(attrs[0]) else current;
      LastWrittenByName(decode, written, name, valueOf, next, attrs[1..]);
    }
  }

  /** A field no attribute writes keeps what it held before. */
  lemma {:induction false} NeverWritten<X>(decode: Attribute -> Result<Mutation, Failure>, written: Mutation -> Option<X>, current: X, attrs: seq<Attribute>)
    requires forall a :: decode(a).Success? ==> written(decode(a).value).None?
    ensures LastWritten(decode, written, current, attrs) == current
    decreases attrs
  {
    if attrs != [] {
      NeverWritten(decode, written, current, attrs[1..]);
    }
  }

  /** An appending field, after a successful fold: what it held, then the contributions of the attributes of its name. */
  lemma FieldCollected<X>(decode: Attribute -> Result<Mutation, Failure>, get: MatchingDataset -> seq<X>, added: Mutation -> seq<X>, name: string, contribution: Attribute -> seq<X>, ds: MatchingDataset, attrs: seq<Attribute>)
    requires AppendLaw(get, added)
    requires forall a :: decode(a).Success? ==> added(decode(a).value) == if a.name == name then contribution(a) else []
    requires Fold(decode, ds, attrs).Success?
    ensures get(Fold(decode, ds, attrs).value) == get(ds) + Collected(attrs, name, contribution)
  {
    FoldFails(decode, ds, attrs);
    FoldGathers(decode, get, added, ds, attrs);
    GatheredByName(decode, added, name, contribution, attrs);
  }

  /** An overwritten field, after a successful fold: the value of the last attribute of its name, or what it held. */
  lemma FieldLastNamed<X>(decode: Attribute -> Result<Mutation, Failure>, get: MatchingDataset -> X, written: Mutation -> Option<X>, name: string, valueOf: Attribute -> X, ds: MatchingDataset, attrs: seq<Attribute>)
    requires OverwriteLaw(get, written)
    requires forall a :: decode(a).Success? ==> written(decode(a).value) == if a.name == name then Some(valueOf(a)) else None
    requires Fold(decode, ds, attrs).Success?
    ensures get(Fold(decode, ds, attrs).value) == match LastNamed(attrs, name) case None => get(ds) case Some(i) => valueOf(attrs[i])
  {
    FoldFails(decode, ds, attrs);
    FoldLastWrite(decode, get, written, ds, attrs);
    LastWrittenByName(decode, written, name, valueOf, get(ds), attrs);
  }

  /** An overwritten field no attribute writes, after a successful fold: what it held. */
  lemma FieldUnwritten<X>(decode: Attribute -> Result<Mutation, Failure>, get: MatchingDataset -> X, written: Mutation -> Option<X>, ds: MatchingDataset, attrs: seq<Attribute>)
    requires OverwriteLaw(get, written)
    requires forall a :: decode(a).Success? ==> written(decode(a).value).None?
    requires Fold(decode, ds, attrs).Success?
    ensures get(Fold(decode, ds, attrs).value) == get(ds)
  {
    FoldLastWrite(decode, get, written, ds, attrs);
    NeverWritten(decode, written, get(ds), attrs);
  }

  // ---------------------------------------------------------------------------
  // Per-field views of the dataset
  // ---------------------------------------------------------------------------

  function FirstNamesOf(ds: MatchingDataset): seq<SimpleMdsValue<string>> { ds.firstNames }
  function MiddleNamesOf(ds: MatchingDataset): seq<SimpleMdsValue<string>> { ds.middleNames }
  function SurnamesOf(ds: MatchingDataset): seq<SimpleMdsValue<string>> { ds.surnames }
  function DateOfBirthsOf(ds: MatchingDataset): seq<SimpleMdsValue<LocalDate>> { ds.dateOfBirths }
  function CurrentAddressesOf(ds: MatchingDataset): seq<Address> { ds.currentAddresses }
  function PreviousAddressesOf(ds: MatchingDataset): seq<Address> { ds.previousAddresses }
  function GenderOf(ds: MatchingDataset): Option<SimpleMdsValue<Gender>> { ds.gender }
  function PersonalIdOf(ds: MatchingDataset): seq<SimpleMdsValue<string>> { ds.personalId }

  function FirstnamesAdded(m: Mutation): seq<SimpleMdsValue<string>> { if m.AddFirstnames? then m.names else [] }
  function MiddlenamesAdded(m: Mutation): seq<SimpleMdsValue<string>> { if m.AddMiddlenames? then m.names else [] }
  function SurnamesAdded(m: Mutation): seq<SimpleMdsValue<string>> { if m.AddSurnames? then m.names else [] }
  function DatesOfBirthAdded(m: Mutation): seq<SimpleMdsValue<LocalDate>> { if m.AddDatesOfBirth? then m.dates else [] }
  function CurrentAddressesAdded(m: Mutation): seq<Address> { if m.AddCurrentAddresses? then m.addresses else [] }
  function PreviousAddressesAdded(m: Mutation): seq<Address> { if m.AddPreviousAddresses? then m.addresses else [] }
  function GenderWritten(m: Mutation): Option<Option<SimpleMdsValue<Gender>>> { if m.SetGender? then Some(m.gender) else None }
  function PersonalIdWritten(m: Mutation): Option<seq<SimpleMdsValue<string>>> { if m.SetPersonalId? then Some(m.ids) else None }

  // ---------------------------------------------------------------------------
  // Each field after a successful fold
  // ---------------------------------------------------------------------------

  /** No contribution at all, for a field no attribute adds to. */
  function Nothing<X>(a: Attribute): seq<X>
  {
    []
  }

  lemma {:induction false} CollectedNothing<X>(attrs: seq<Attribute>, name: string)
    ensures Collected(attrs, name, Nothing<X>) == []
  {
    if attrs != [] {
      CollectedNothing<X>(attrs[1..], name);
    }
  }

  /** `firstNames` after a fold in which only attributes named `name` add to it, each adding its contribution. */
  lemma FirstNamesCollected(decode: Attribute -> Result<Mutation, Failure>, name: string, contribution: Attribute -> seq<SimpleMdsValue<string>>, ds: MatchingDataset, attrs: seq<Attribute>)
    requires forall a :: decode(a).Success? ==> FirstnamesAdded(decode(a).value) == if a.name == name then contribution(a) else []
    requires Fold(decode, ds, attrs).Success?
    ensures Fold(decode, ds, attrs).value.firstNames == ds.firstNames + Collected(attrs, name, contribution)
  {
    forall ds', m ensures FirstNamesOf(Apply(ds', m)) == FirstNamesOf(ds') + FirstnamesAdded(m) {}
    FieldCollected(decode, FirstNamesOf, FirstnamesAdded, name, contribution, ds, attrs);
  }

  /** `middleNames` after a fold in which only attributes named `name` add to it, each adding its contribution. */
  lemma MiddleNamesCollected(decode: Attribute -> Result<Mutation, Failure>, name: string, contribution: Attribute -> seq<SimpleMdsValue<string>>, ds: MatchingDataset, attrs: seq<Attribute>)
    requires forall a :: decode(a).Success? ==> MiddlenamesAdded(decode(a).value) == if a.name == name then contribution(a) else []
    requires Fold(decode, ds, attrs).Success?
    ensures Fold(decode, ds, attrs).value.middleNames == ds.middleNames + Collected(attrs, name, contribution)
  {
    forall ds', m ensures MiddleNamesOf(Apply(ds', m)) == MiddleNamesOf(ds') + MiddlenamesAdded(m) {}
    FieldCollected(decode, MiddleNamesOf, MiddlenamesAdded, name, contribution, ds, attrs);
  }

  /** `surnames` after a fold in which only attributes named `name` add to it, each adding its contribution. */
  lemma SurnamesCollected(decode: Attribute -> Result<Mutation, Failure>, name: string, contribution: Attribute -> seq<SimpleMdsValue<string>>, ds: MatchingDataset, attrs: seq<Attribute>)
    requires forall a :: decode(a).Success? ==> SurnamesAdded(decode(a).value) == if a.name == name then contribution(a) else []
    requires Fold(decode, ds, attrs).Success?
    ensures Fold(decode, ds, attrs).value.surnames == ds.surnames + Collected(attrs, name, contribution)
  {
    forall ds', m ensures SurnamesOf(Apply(ds', m)) == SurnamesOf(ds') + SurnamesAdded(m) {}
    FieldCollected(decode, SurnamesOf, SurnamesAdded, name, contribution, ds, attrs);
  }

  /** `dateOfBirths` after a fold in which only attributes named `name` add to it, each adding its contribution. */
  lemma DateOfBirthsCollected(decode: Attribute -> Result<Mutation, Failure>, name: string, contribution: Attribute -> seq<SimpleMdsValue<LocalDate>>, ds: MatchingDataset, attrs: seq<Attribute>)
    requires forall a :: decode(a).Success? ==> DatesOfBirthAdded(decode(a).value) == if a.name == name then contribution(a) else []
    requires Fold(decode, ds, attrs).Success?
    ensures Fold(decode, ds, attrs).value.dateOfBirths == ds.dateOfBirths + Collected(attrs, name, contribution)
  {
    forall ds', m ensures DateOfBirthsOf(Apply(ds', m)) == DateOfBirthsOf(ds') + DatesOfBirthAdded(m) {}
    FieldCollected(decode, DateOfBirthsOf, DatesOfBirthAdded, name, contribution, ds, attrs);
  }

  /** `currentAddresses` after a fold in which only attributes named `name` add to it, each adding its contribution. */
  lemma CurrentAddressesCollected(decode: Attribute -> Result<Mutation, Failure>, name: string, contribution: Attribute -> seq<Address>, ds: MatchingDataset, attrs: seq<Attribute>)
    requires forall a :: decode(a).Success? ==> CurrentAddressesAdded(decode(a).value) == if a.name == name then contribution(a) else []
    requires Fold(decode, ds, attrs).Success?
    ensures Fold(decode, ds, attrs).value.currentAddresses == ds.currentAddresses + Collected(attrs, name, contribution)
  {
    forall ds', m ensures CurrentAddressesOf(Apply(ds', m)) == CurrentAddressesOf(ds') + CurrentAddressesAdded(m) {}
    FieldCollected(decode, CurrentAddressesOf, CurrentAddressesAdded, name, contribution, ds, attrs);
  }

  /** `previousAddresses` after a fold in which only attributes named `name` add to it, each adding its contribution. */
  lemma PreviousAddressesCollected(decode: Attribute -> Result<Mutation, Failure>, name: string, contribution: Attribute -> seq<Address>, ds: MatchingDataset, attrs: seq<Attribute>)
    requires forall a :: decode(a).Success? ==> PreviousAddressesAdded(decode(a).value) == if a.name == name then contribution(a) else []
    requires Fold(decode, ds, attrs).Success?
    ensures Fold(decode, ds, attrs).value.previousAddresses == ds.previousAddresses + Collected(attrs, name, contribution)
  {
    forall ds', m ensures PreviousAddressesOf(Apply(ds', m)) == PreviousAddressesOf(ds') + PreviousAddressesAdded(m) {}
    FieldCollected(decode, PreviousAddressesOf, PreviousAddressesAdded, name, contribution, ds, attrs);
  }

  /** `gender` after a fold in which only attributes named `name` write it: the last one's value. */
  lemma GenderLastNamed(decode: Attribute -> Result<Mutation, Failure>, name: string, valueOf: Attribute -> Option<SimpleMdsValue<Gender>>, ds: MatchingDataset, attrs: seq<Attribute>)
    requires forall a :: decode(a).Success? ==> GenderWritten(decode(a).value) == if a.name == name then Some(valueOf(a)) else None
    requires Fold(decode, ds, attrs).Success?
    ensures Fold(decode, ds, attrs).value.gender == match LastNamed(attrs, name) case None => ds.gender case Some(i) => valueOf(attrs[i])
  {
    forall ds', m ensures GenderOf(Apply(ds', m)) == if GenderWritten(m).Some? then GenderWritten(m).value else GenderOf(ds') {}
    FieldLastNamed(decode, GenderOf, GenderWritten, name, valueOf, ds, attrs);
  }

  /** `gender` after a fold in which no attribute writes it: unchanged. */
  lemma GenderUnwritten(decode: Attribute -> Result<Mutation, Failure>, ds: MatchingDataset, attrs: seq<Attribute>)
    requires forall a :: decode(a).Success? ==> GenderWritten(decode(a).value).None?
    requires Fold(decode, ds, attrs).Success?
    ensures Fold(decode, ds, attrs).value.gender == ds.gender
  {
    forall ds', m ensures GenderOf(Apply(ds', m)) == if GenderWritten(m).Some? then GenderWritten(m).value else GenderOf(ds') {}
    FieldUnwritten(decode, GenderOf, GenderWritten, ds, attrs);
  }

  /** `personalId` after a fold in which only attributes named `name` write it: the last one's value. */
  lemma PersonalIdLastNamed(decode: Attribute -> Result<Mutation, Failure>, name: string, valueOf: Attribute -> seq<SimpleMdsValue<string>>, ds: MatchingDataset, attrs: seq<Attribute>)
    requires forall a :: decode(a).Success? ==> PersonalIdWritten(decode(a).value) == if a.name == name then Some(valueOf(a)) else None
    requires Fold(decode, ds, attrs).Success?
    ensures Fold(decode, ds, attrs).value.personalId == match LastNamed(attrs, name) case None => ds.personalId case Some(i) => valueOf(attrs[i])
  {
    forall ds', m ensures PersonalIdOf(Apply(ds', m)) == if PersonalIdWritten(m).Some? then PersonalIdWritten(m).value else PersonalIdOf(ds') {}
    FieldLastNamed(decode, PersonalIdOf, PersonalIdWritten, name, valueOf, ds, attrs);
  }

  /** `personalId` after a fold in which no attribute writes it: unchanged. */
  lemma PersonalIdUnwritten(decode: Attribute -> Result<Mutation, Failure>, ds: MatchingDataset, attrs: seq<Attribute>)
    requires forall a :: decode(a).Success? ==> PersonalIdWritten(decode(a).value).None?
    requires Fold(decode, ds, attrs).Success?
    ensures Fold(decode, ds, attrs).value.personalId == ds.personalId
  {
    forall ds', m ensures PersonalIdOf(Apply(ds', m)) == if PersonalIdWritten(m).Some? then PersonalIdWritten(m).value else PersonalIdOf(ds') {}
    FieldUnwritten(decode, PersonalIdOf, PersonalIdWritten, ds, attrs);
  }
}
