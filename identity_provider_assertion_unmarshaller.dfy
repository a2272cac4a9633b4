/**
 * The unmarshaller that turns an identity provider's SAML assertion into the
 * domain's IdentityProviderAssertion: identifiers, subject restrictions, and
 * optionally a matching dataset and an authentication statement.
 */
module IdentityProviderAssertions {
  import opened Wrappers
  import opened SamlObjects
  import opened MatchingDatasets
  import opened MatchingDatasetUnmarshallerBase
  import opened MatchingDatasetUnmarshaller

  /** The restrictions copied from the first subject confirmation's data. */
  datatype AssertionRestrictions = AssertionRestrictions(notOnOrAfter: Option<DateTime>, inResponseTo: Option<string>, recipient: Option<string>)

  datatype PersistentId = PersistentId(nameId: string)

  /** What `IdentityProviderAuthnStatementUnmarshaller` returns; its code is not part of this model. */
  datatype IdentityProviderAuthnStatement = IdentityProviderAuthnStatement(authnContext: string)

  datatype IdentityProviderAssertion = IdentityProviderAssertion(
    id: string,
    issuer: string,
    issueInstant: DateTime,
    persistentId: PersistentId,
    restrictions: AssertionRestrictions,
    matchingDataset: Option<MatchingDataset>,
    authnStatement: Option<IdentityProviderAuthnStatement>)

  /**
   * The unmarshaller with its collaborators: the date, gender and address
   * conversions of the matching-dataset unmarshallers, the authn-statement
   * unmarshaller, and the hub's own entity id.
   */
  datatype IdentityProviderAssertionUnmarshaller = IdentityProviderAssertionUnmarshaller(
    c: Collaborators,
    authnStatementUnmarshaller: Assertion -> IdentityProviderAuthnStatement,
    hubEntityId: string)
  {
    /** An assertion the hub issued itself (a cycle-3 assertion) is not taken from the identity provider. */
    predicate IsNotCycle3AssertionFromHub(assertion: Assertion)
    {
      assertion.issuer != hubEntityId
    }

    predicate ContainsAuthnStatement(assertion: Assertion)
    {
      |assertion.authnStatements| > 0
    }

    predicate DoesAssertionContainAttributes(assertion: Assertion)
    {
      |assertion.attributeStatements| > 0
    }

    predicate AssertionContainsMatchingDataset(assertion: Assertion)
    {
      DoesAssertionContainAttributes(assertion) && IsNotCycle3AssertionFromHub(assertion)
    }

    /**
     * `getIdentityProviderAssertion`: the matching dataset (when the assertion
     * carries one and is not the hub's) unmarshalled by the given profile, the
     * authn statement under the same condition, and the identifiers and
     * restrictions copied from the assertion and its first subject
     * confirmation.  A failing matching dataset throws before the missing
     * subject confirmation is noticed.
     */
    function GetIdentityProviderAssertion(assertion: Assertion, kind: Kind): (r: Result<IdentityProviderAssertion, Failure>)
      ensures r.Failure? <==>
        (AssertionContainsMatchingDataset(assertion) && FromAssertionSpec(kind, c, assertion).Failure?) ||
        |assertion.subject.confirmations| == 0
      ensures r.Failure? && AssertionContainsMatchingDataset(assertion) && FromAssertionSpec(kind, c, assertion).Failure? ==>
        r.error == FromAssertionSpec(kind, c, assertion).error
      ensures r.Failure? && !(AssertionContainsMatchingDataset(assertion) && FromAssertionSpec(kind, c, assertion).Failure?) ==>
        r.error == IndexOutOfBounds
      ensures r.Success? ==> (
        r.value.matchingDataset ==
          if AssertionContainsMatchingDataset(assertion) then FromAssertionSpec(kind, c, assertion).value else None)
      ensures r.Success? ==> (
        r.value.authnStatement ==
          if ContainsAuthnStatement(assertion) && IsNotCycle3AssertionFromHub(assertion) then Some(authnStatementUnmarshaller(assertion)) else None)
      ensures r.Success? ==>
        && r.value.id == assertion.id && r.value.issuer == assertion.issuer && r.value.issueInstant == assertion.issueInstant
        && r.value.persistentId == PersistentId(assertion.subject.nameId)
        && var data := assertion.subject.confirmations[0];
          r.value.restrictions == AssertionRestrictions(data.notOnOrAfter, data.inResponseTo, data.recipient)
    {
      var mds :=
        if AssertionContainsMatchingDataset(assertion) then FromAssertionSpec(kind, c, assertion)
        else Success(None);
      if mds.Failure? then Failure(mds.error)
      else
        var authnStatement :=
          if ContainsAuthnStatement(assertion) && IsNotCycle3AssertionFromHub(assertion) then Some(authnStatementUnmarshaller(assertion))
          else None;
        if |assertion.subject.confirmations| == 0 then Failure(IndexOutOfBounds)
        else
          var data := assertion.subject.confirmations[0];
          Success(IdentityProviderAssertion(
            assertion.id,
            assertion.issuer,
            assertion.issueInstant,
            PersistentId(assertion.subject.nameId),
            AssertionRestrictions(data.notOnOrAfter, data.inResponseTo, data.recipient),
            mds.value,
            authnStatement))
    }

    /** `fromVerifyAssertion`: the Verify profile. */
    function FromVerifyAssertion(assertion: Assertion): Result<IdentityProviderAssertion, Failure>
    {
      GetIdentityProviderAssertion(assertion, Verify)
    }

    /** The deprecated `fromAssertion`, the same as `fromVerifyAssertion`. */
    function FromAssertion(assertion: Assertion): Result<IdentityProviderAssertion, Failure>
    {
      FromVerifyAssertion(assertion)
    }

    /** `fromCountryAssertion`: the eIDAS profile (not the Country one). */
    function FromCountryAssertion(assertion: Assertion): Result<IdentityProviderAssertion, Failure>
    {
      GetIdentityProviderAssertion(assertion, Eidas)
    }
  }

  /**
   * An assertion the hub issued yields neither a matching dataset nor an authn
   * statement, whatever it contains, and so fails only for want of a subject
   * confirmation.
   */
  lemma HubAssertionCarriesNothing(u: IdentityProviderAssertionUnmarshaller, assertion: Assertion, kind: Kind)
    requires assertion.issuer == u.hubEntityId
    ensures u.GetIdentityProviderAssertion(assertion, kind).Failure? <==> |assertion.subject.confirmations| == 0
    ensures u.GetIdentityProviderAssertion(assertion, kind).Success? ==>
      u.GetIdentityProviderAssertion(assertion, kind).value.matchingDataset.None? &&
      u.GetIdentityProviderAssertion(assertion, kind).value.authnStatement.None?
  {
  }

  /**
   * An identity provider's assertion with attributes, whose matching dataset
   * unmarshals, has that dataset; one with attributes never ends up with an
   * absent dataset, since the unmarshaller returns none only without them.
   */
  lemma MatchingDatasetPresent(u: IdentityProviderAssertionUnmarshaller, assertion: Assertion, kind: Kind)
    requires u.AssertionContainsMatchingDataset(assertion)
    requires u.GetIdentityProviderAssertion(assertion, kind).Success?
    ensures u.GetIdentityProviderAssertion(assertion, kind).value.matchingDataset.Some?
    ensures u.GetIdentityProviderAssertion(assertion, kind).value.matchingDataset.value ==
      Fold(Decoder(kind, u.c), MatchingDatasetBuilders.EmptyDataset, assertion.attributeStatements[0].attributes).value
  {
  }

  /** The deprecated `fromAssertion` gives the same result as `fromVerifyAssertion`, for every assertion. */
  lemma DeprecatedFromAssertionIsVerify(u: IdentityProviderAssertionUnmarshaller, assertion: Assertion)
    ensures u.FromAssertion(assertion) == u.FromVerifyAssertion(assertion)
  {
  }
}
