/**
 * `fromAssertion` of the abstract matching-dataset unmarshaller: the attributes
 * of an assertion's first attribute statement, fed in order to a fresh builder
 * through the dispatcher of one of the three profiles.
 */
module MatchingDatasetUnmarshaller {
  import opened Wrappers
  import opened SamlObjects
  import opened MatchingDatasets
  import opened MatchingDatasetBuilders
  import opened MatchingDatasetUnmarshallerBase
  import VerifyProfile = VerifyMatchingDatasetUnmarshaller
  import CountryProfile = CountryMatchingDatasetUnmarshaller
  import EidasProfile = EidasMatchingDatasetUnmarshaller

  /** The three concrete subclasses, each overriding `transformAttribute`. */
  datatype Kind = Verify | Country | Eidas

  function Decoder(kind: Kind, c: Collaborators): Attribute -> Result<Mutation, Failure>
  {
    match kind
    case Verify => VerifyProfile.Decoder(c)
    case Country => CountryProfile.Decoder(c)
    case Eidas => EidasProfile.Decoder()
  }

  /**
   * What `fromAssertion` returns: no dataset (Java's null) when there is no
   * attribute statement, the first exception of the first statement's
   * attributes, or the dataset they build.
   */
  function FromAssertionSpec(kind: Kind, c: Collaborators, assertion: Assertion): (r: Result<Option<MatchingDataset>, Failure>)
    ensures r.Success? ==> (r.value.None? <==> |assertion.attributeStatements| == 0)
    ensures r.Failure? <==> (
      && |assertion.attributeStatements| > 0
      && exists i :: 0 <= i < |assertion.attributeStatements[0].attributes|
           && Decoder(kind, c)(assertion.attributeStatements[0].attributes[i]).Failure?)
    ensures r.Failure? ==>
      var attrs := assertion.attributeStatements[0].attributes;
      exists i :: 0 <= i < |attrs| && Decoder(kind, c)(attrs[i]) == Failure(r.error) &&
        forall k :: 0 <= k < i ==> Decoder(kind, c)(attrs[k]).Success?
    ensures r.Success? && r.value.Some? ==>
      Fold(Decoder(kind, c), EmptyDataset, assertion.attributeStatements[0].attributes) == Success(r.value.value)
  {
    if |assertion.attributeStatements| == 0 then Success(None)
    else
      var attrs := assertion.attributeStatements[0].attributes;
      FoldFails(Decoder(kind, c), EmptyDataset, attrs);
      match Fold(Decoder(kind, c), EmptyDataset, attrs)
      case Success(ds) => Success(Some(ds))
      case Failure(e) => Failure(e)
  }

  /** The overriding `transformAttribute` of the given subclass. */
  method TransformAttribute(kind: Kind, c: Collaborators, a: Attribute, b: MatchingDatasetBuilder) returns (r: Outcome<Failure>)
    modifies b
    ensures Decoder(kind, c)(a).Success? ==> r == Pass && b.Snapshot() == Apply(old(b.Snapshot()), Decoder(kind, c)(a).value)
    ensures Decoder(kind, c)(a).Failure? ==> r == Fail(Decoder(kind, c)(a).error) && b.Snapshot() == old(b.Snapshot())
  {
    match kind
    case Verify => r := VerifyProfile.TransformAttribute(c, a, b);
    case Country => r := CountryProfile.TransformAttribute(c, a, b);
    case Eidas => r := EidasProfile.TransformAttribute(a, b);
  }

  /** `fromAssertion` */
  method FromAssertion(kind: Kind, c: Collaborators, assertion: Assertion) returns (r: Result<Option<MatchingDataset>, Failure>)
    ensures r == FromAssertionSpec(kind, c, assertion)
  {
    var attributeStatements := assertion.attributeStatements;
    if |attributeStatements| == 0 {
      return Success(None);
    }
    var attributes := attributeStatements[0].attributes;
    ghost var decode := Decoder(kind, c);
    var datasetBuilder := new MatchingDatasetBuilder();
    for i := 0 to |attributes|
      invariant Fold(decode, datasetBuilder.Snapshot(), attributes[i..]) == Fold(decode, EmptyDataset, attributes)
    {
      assert attributes[i..][0] == attributes[i] && attributes[i..][1..] == attributes[i + 1..];
      var outcome := TransformAttribute(kind, c, attributes[i], datasetBuilder);
      if outcome.Fail? {
        return Failure(outcome.error);
      }
    }
    var ds := datasetBuilder.Build();
    return Success(Some(ds));
  }

  /** Only the first attribute statement is read: later statements never change the result. */
  lemma OnlyFirstStatementRead(kind: Kind, c: Collaborators, a1: Assertion, a2: Assertion)
    requires |a1.attributeStatements| > 0 && |a2.attributeStatements| > 0
    requires a1.attributeStatements[0] == a2.attributeStatements[0]
    ensures FromAssertionSpec(kind, c, a1) == FromAssertionSpec(kind, c, a2)
  {
  }
}
