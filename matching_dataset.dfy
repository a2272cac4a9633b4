/** The matching dataset: the immutable identity record an assertion carries. */
module MatchingDatasets {
  import opened Wrappers
  import opened SamlObjects

  /**
   * A MatchingDataset.  Its getters are the datatype's destructors, so each
   * returns exactly what the constructor was given and nothing can change it
   * afterwards.  `personalId` is held as a list of values, as the builder holds it.
   */
  datatype MatchingDataset = MatchingDataset(
    firstNames: seq<SimpleMdsValue<string>>,
    middleNames: seq<SimpleMdsValue<string>>,
    surnames: seq<SimpleMdsValue<string>>,
    gender: Option<SimpleMdsValue<Gender>>,
    dateOfBirths: seq<SimpleMdsValue<LocalDate>>,
    currentAddresses: seq<Address>,
    previousAddresses: seq<Address>,
    personalId: seq<SimpleMdsValue<string>>)
  {
    /** `getAddresses`: every current address, then every previous address. */
    function Addresses(): (r: seq<Address>)
      ensures |r| == |currentAddresses| + |previousAddresses|
      ensures r[..|currentAddresses|] == currentAddresses
      ensures r[|currentAddresses|..] == previousAddresses
    {
      currentAddresses + previousAddresses
    }
  }

  /** In `getAddresses`, each current address comes before each previous address. */
  lemma AddressesOrder(ds: MatchingDataset, i: nat, j: nat)
    requires i < |ds.currentAddresses| && j < |ds.previousAddresses|
    ensures var r := ds.Addresses();
      i < |ds.currentAddresses| + j && r[i] == ds.currentAddresses[i] && r[|ds.currentAddresses| + j] == ds.previousAddresses[j]
  {
    var r := ds.Addresses();
    assert r[i] == r[..|ds.currentAddresses|][i];
    assert r[|ds.currentAddresses| + j] == r[|ds.currentAddresses|..][j];
  }
}
