/** The matching-dataset unmarshaller for Verify identity providers' assertions. */
module VerifyMatchingDatasetUnmarshaller {
  import opened Wrappers
  import opened SamlObjects
  import opened MatchingDatasets
  import opened MatchingDatasetBuilders
  import opened MatchingDatasetUnmarshallerBase

  /** The attribute names the Verify dispatcher accepts. */
  predicate IsSupported(name: string)
  {
    name in {MdsFirstname, MdsMiddlename, MdsSurname, MdsGender, MdsDateOfBirth, MdsCurrentAddress, MdsPreviousAddress}
  }

  const UnsupportedProfile := ""

  /** `transformAttribute` on values: the builder call one attribute causes, or the exception it throws. */
  function Decode(c: Collaborators, a: Attribute): (r: Result<Mutation, Failure>)
    ensures !IsSupported(a.name) <==> r == Failure(IllegalArgument(UnsupportedMessage(a.name, UnsupportedProfile)))
    ensures a.name in {MdsFirstname, MdsMiddlename, MdsSurname} ==>
      (r.Success? <==> forall i :: 0 <= i < |a.values| ==> PersonNameEntry(a.values[i]).Some?)
    ensures a.name == MdsGender ==>
      (r.Success? <==> |a.values| > 0 && a.values[0].StringBasedMds? && a.values[0].element == GenderElement)
    ensures a.name == MdsDateOfBirth ==> (r.Success? <==> forall i :: 0 <= i < |a.values| ==> a.values[i].StringBasedMds?)
    ensures a.name in {MdsCurrentAddress, MdsPreviousAddress} ==> r.Success?
    ensures r.Failure? && IsSupported(a.name) ==> r.error == if a.name == MdsGender && |a.values| == 0 then IndexOutOfBounds else ClassCast
    ensures r.Success? ==> FirstnamesAdded(r.value) == if a.name == MdsFirstname then PersonNamesOf(a) else []
    ensures r.Success? ==> MiddlenamesAdded(r.value) == if a.name == MdsMiddlename then PersonNamesOf(a) else []
    ensures r.Success? ==> SurnamesAdded(r.value) == if a.name == MdsSurname then PersonNamesOf(a) else []
    ensures r.Success? ==> GenderWritten(r.value) == if a.name == MdsGender then Some(GenderOfAttribute(c)(a)) else None
    ensures r.Success? ==> DatesOfBirthAdded(r.value) == if a.name == MdsDateOfBirth then BirthdatesOf(c.parseDate)(a) else []
    ensures r.Success? ==> CurrentAddressesAdded(r.value) == if a.name == MdsCurrentAddress then c.createAddresses(a) else []
    ensures r.Success? ==> PreviousAddressesAdded(r.value) == if a.name == MdsPreviousAddress then c.createAddresses(a) else []
    ensures r.Success? ==> PersonalIdWritten(r.value).None?
  {
    if a.name == MdsFirstname then
      match CastEach(a.values, PersonNameEntry)
      case Success(names) => Success(AddFirstnames(names))
      case Failure(e) => Failure(e)
    else if a.name == MdsMiddlename then
      match CastEach(a.values, PersonNameEntry)
      case Success(names) => Success(AddMiddlenames(names))
      case Failure(e) => Failure(e)
    else if a.name == MdsSurname then
      match CastEach(a.values, PersonNameEntry)
      case Success(names) => Success(AddSurnames(names))
      case Failure(e) => Failure(e)
    else if a.name == MdsGender then
      match GenderEntry(c, a)
      case Success(gender) => Success(SetGender(Some(gender)))
      case Failure(e) => Failure(e)
    else if a.name == MdsDateOfBirth then
      match CastEach(a.values, BirthdateEntry(c.parseDate))
      case Success(dates) => Success(AddDatesOfBirth(dates))
      case Failure(e) => Failure(e)
    else if a.name == MdsCurrentAddress then
      Success(AddCurrentAddresses(c.createAddresses(a)))
    else if a.name == MdsPreviousAddress then
      Success(AddPreviousAddresses(c.createAddresses(a)))
    else
      Failure(IllegalArgument(UnsupportedMessage(a.name, UnsupportedProfile)))
  }

  function Decoder(c: Collaborators): Attribute -> Result<Mutation, Failure>
  {
    (a: Attribute) => Decode(c, a)
  }

  /** `transformAttribute`: performs the builder call of `Decode`, or throws and leaves the builder alone. */
  method TransformAttribute(c: Collaborators, a: Attribute, b: MatchingDatasetBuilder) returns (r: Outcome<Failure>)
    modifies b
    ensures Decode(c, a).Success? ==> r == Pass && b.Snapshot() == Apply(old(b.Snapshot()), Decode(c, a).value)
    ensures Decode(c, a).Failure? ==> r == Fail(Decode(c, a).error) && b.Snapshot() == old(b.Snapshot())
  {
    if a.name == MdsFirstname {
      var names := TransformPersonNameAttribute(a);
      if names.Failure? {
        return Fail(names.error);
      }
      b.Firstname(names.value);
    } else if a.name == MdsMiddlename {
      var names := TransformPersonNameAttribute(a);
      if names.Failure? {
        return Fail(names.error);
      }
      b.Middlenames(names.value);
    } else if a.name == MdsSurname {
      var names := TransformPersonNameAttribute(a);
      if names.Failure? {
        return Fail(names.error);
      }
      b.AddSurnames(names.value);
    } else if a.name == MdsGender {
      if |a.values| == 0 {
        return Fail(IndexOutOfBounds);
      }
      match a.values[0]
      case StringBasedMds(GenderElement, value, from, to, verified) =>
        b.Gender(Some(SimpleMdsValue(c.genderFromString(value), from, to, verified)));
      case _ =>
        return Fail(ClassCast);
    } else if a.name == MdsDateOfBirth {
      var dates := GetBirthdates(c, a);
      if dates.Failure? {
        return Fail(dates.error);
      }
      b.DateOfBirth(dates.value);
    } else if a.name == MdsCurrentAddress {
      var transformedCurrentAddresses := c.createAddresses(a);
      b.AddCurrentAddresses(transformedCurrentAddresses);
    } else if a.name == MdsPreviousAddress {
      var transformedPreviousAddresses := c.createAddresses(a);
      b.AddPreviousAddresses(transformedPreviousAddresses);
    } else {
      return Fail(IllegalArgument(UnsupportedMessage(a.name, UnsupportedProfile)));
    }
    return Pass;
  }

  /** What each decoded attribute adds to each field, stated for the decoder as a function value. */
  lemma DecoderContributions(c: Collaborators)
    ensures forall a :: Decoder(c)(a).Success? ==> FirstnamesAdded(Decoder(c)(a).value) == if a.name == MdsFirstname then PersonNamesOf(a) else []
    ensures forall a :: Decoder(c)(a).Success? ==> MiddlenamesAdded(Decoder(c)(a).value) == if a.name == MdsMiddlename then PersonNamesOf(a) else []
    ensures forall a :: Decoder(c)(a).Success? ==> SurnamesAdded(Decoder(c)(a).value) == if a.name == MdsSurname then PersonNamesOf(a) else []
    ensures forall a :: Decoder(c)(a).Success? ==> DatesOfBirthAdded(Decoder(c)(a).value) == if a.name == MdsDateOfBirth then BirthdatesOf(c.parseDate)(a) else []
    ensures forall a :: Decoder(c)(a).Success? ==> CurrentAddressesAdded(Decoder(c)(a).value) == if a.name == MdsCurrentAddress then c.createAddresses(a) else []
    ensures forall a :: Decoder(c)(a).Success? ==> PreviousAddressesAdded(Decoder(c)(a).value) == if a.name == MdsPreviousAddress then c.createAddresses(a) else []
    ensures forall a :: Decoder(c)(a).Success? ==> GenderWritten(Decoder(c)(a).value) == if a.name == MdsGender then Some(GenderOfAttribute(c)(a)) else None
    ensures forall a :: Decoder(c)(a).Success? ==> PersonalIdWritten(Decoder(c)(a).value).None?
  {
  }

  /**
   * The dataset a Verify assertion's attributes build: each list holds the
   * entries of the attributes of its name in attribute order, the gender is
   * that of the last Gender attribute, and no personal identifier is ever set.
   */
  lemma VerifyDataset(c: Collaborators, attrs: seq<Attribute>)
    requires Fold(Decoder(c), EmptyDataset, attrs).Success?
    ensures var ds := Fold(Decoder(c), EmptyDataset, attrs).value;
      && ds.firstNames == Collected(attrs, MdsFirstname, PersonNamesOf)
      && ds.middleNames == Collected(attrs, MdsMiddlename, PersonNamesOf)
      && ds.surnames == Collected(attrs, MdsSurname, PersonNamesOf)
      && ds.dateOfBirths == Collected(attrs, MdsDateOfBirth, BirthdatesOf(c.parseDate))
      && ds.currentAddresses == Collected(attrs, MdsCurrentAddress, c.createAddresses)
      && ds.previousAddresses == Collected(attrs, MdsPreviousAddress, c.createAddresses)
      && ds.gender == (match LastNamed(attrs, MdsGender) case None => None case Some(i) => GenderOfAttribute(c)(attrs[i]))
      && ds.personalId == []
  {
    var decode := Decoder(c);
    DecoderContributions(c);
    FirstNamesCollected(decode, MdsFirstname, PersonNamesOf, EmptyDataset, attrs);
    MiddleNamesCollected(decode, MdsMiddlename, PersonNamesOf, EmptyDataset, attrs);
    SurnamesCollected(decode, MdsSurname, PersonNamesOf, EmptyDataset, attrs);
    DateOfBirthsCollected(decode, MdsDateOfBirth, BirthdatesOf(c.parseDate), EmptyDataset, attrs);
    CurrentAddressesCollected(decode, MdsCurrentAddress, c.createAddresses, EmptyDataset, attrs);
    PreviousAddressesCollected(decode, MdsPreviousAddress, c.createAddresses, EmptyDataset, attrs);
    GenderLastNamed(decode, MdsGender, GenderOfAttribute(c), EmptyDataset, attrs);
    PersonalIdUnwritten(decode, EmptyDataset, attrs);
  }
}
