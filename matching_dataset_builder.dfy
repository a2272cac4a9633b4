/**
 * The mutable builder the matching-dataset unmarshallers fill attribute by
 * attribute, and the effect of each of its mutators as a pure update of the
 * dataset it would build.
 */
module MatchingDatasetBuilders {
  import opened Wrappers
  import opened SamlObjects
  import opened MatchingDatasets

  /** What a fresh builder builds: seven empty lists and no gender. */
  const EmptyDataset := MatchingDataset([], [], [], None, [], [], [], [])

  /** One call of one builder mutator with its argument, or no call at all. */
  datatype Mutation =
    | AddFirstnames(names: seq<SimpleMdsValue<string>>)
    | AddMiddlenames(names: seq<SimpleMdsValue<string>>)
    | AddSurnames(names: seq<SimpleMdsValue<string>>)
    | SetGender(gender: Option<SimpleMdsValue<Gender>>)
    | AddDatesOfBirth(dates: seq<SimpleMdsValue<LocalDate>>)
    | AddCurrentAddresses(addresses: seq<Address>)
    | AddPreviousAddresses(addresses: seq<Address>)
    | SetPersonalId(ids: seq<SimpleMdsValue<string>>)
    | NoMutation

  /**
   * The dataset a builder builds after the mutation, given the one it built
   * before: the list mutators append, `gender` and `personalId` overwrite, and
   * every other field is left as it was.
   */
  function Apply(ds: MatchingDataset, m: Mutation): MatchingDataset
  {
    match m
    case AddFirstnames(names) => ds.(firstNames := ds.firstNames + names)
    case AddMiddlenames(names) => ds.(middleNames := ds.middleNames + names)
    case AddSurnames(names) => ds.(surnames := ds.surnames + names)
    case SetGender(gender) => ds.(gender := gender)
    case AddDatesOfBirth(dates) => ds.(dateOfBirths := ds.dateOfBirths + dates)
    case AddCurrentAddresses(addresses) => ds.(currentAddresses := ds.currentAddresses + addresses)
    case AddPreviousAddresses(addresses) => ds.(previousAddresses := ds.previousAddresses + addresses)
    case SetPersonalId(ids) => ds.(personalId := ids)
    case NoMutation => ds
  }

  class MatchingDatasetBuilder {
    var firstnames: seq<SimpleMdsValue<string>>
    var middlenames: seq<SimpleMdsValue<string>>
    var surnames: seq<SimpleMdsValue<string>>
    var gender: Option<SimpleMdsValue<Gender>>
    var dateOfBirths: seq<SimpleMdsValue<LocalDate>>
    var currentAddresses: seq<Address>
    var previousAddresses: seq<Address>
    var personalId: seq<SimpleMdsValue<string>>

    /** The dataset `build` would return now. */
    function Snapshot(): MatchingDataset
      reads this
    {
      MatchingDataset(firstnames, middlenames, surnames, gender, dateOfBirths, currentAddresses, previousAddresses, personalId)
    }

    constructor ()
      ensures Snapshot() == EmptyDataset
    {
      firstnames, middlenames, surnames := [], [], [];
      gender := None;
      dateOfBirths, currentAddresses, previousAddresses := [], [], [];
      personalId := [];
    }

    method Firstname(names: seq<SimpleMdsValue<string>>)
      modifies this
      ensures Snapshot() == old(Snapshot()).(firstNames := old(firstnames) + names)
    {
      firstnames := firstnames + names;
    }

    method AddSurnames(names: seq<SimpleMdsValue<string>>)
      modifies this
      ensures Snapshot() == old(Snapshot()).(surnames := old(surnames) + names)
    {
      surnames := surnames + names;
    }

    /** `gender`: last write wins, and a null argument clears the gender. */
    method Gender(value: Option<SimpleMdsValue<Gender>>)
      modifies this
      ensures Snapshot() == old(Snapshot()).(gender := value)
    {
      gender := value;
    }

    method DateOfBirth(dates: seq<SimpleMdsValue<LocalDate>>)
      modifies this
      ensures Snapshot() == old(Snapshot()).(dateOfBirths := old(dateOfBirths) + dates)
    {
      dateOfBirths := dateOfBirths + dates;
    }

    method AddCurrentAddresses(addresses: seq<Address>)
      modifies this
      ensures Snapshot() == old(Snapshot()).(currentAddresses := old(currentAddresses) + addresses)
    {
      currentAddresses := currentAddresses + addresses;
    }

    /** `personalId` replaces the stored list rather than appending to it. */
    method PersonalId(ids: seq<SimpleMdsValue<string>>)
      modifies this
      ensures Snapshot() == old(Snapshot()).(personalId := ids)
    {
      personalId := ids;
    }

    method Middlenames(names: seq<SimpleMdsValue<string>>)
      modifies this
      ensures Snapshot() == old(Snapshot()).(middleNames := old(middlenames) + names)
    {
      middlenames := middlenames + names;
    }

    method AddPreviousAddresses(addresses: seq<Address>)
      modifies this
      ensures Snapshot() == old(Snapshot()).(previousAddresses := old(previousAddresses) + addresses)
    {
      previousAddresses := previousAddresses + addresses;
    }

    /** `build`: the dataset the mutators so far describe. */
    method Build() returns (r: MatchingDataset)
      ensures r == Snapshot()
    {
      r := MatchingDataset(firstnames, middlenames, surnames, gender, dateOfBirths, currentAddresses, previousAddresses, personalId);
    }
  }
}
