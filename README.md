# verify-saml-libs core, modelled in Dafny

This project models two parts of the GOV.UK Verify SAML libraries.

1. **CertificateChainValidationFilter.** This is the metadata filter that checks the X.509 certificate chain of every key of every role descriptor of a chosen role. It removes every role descriptor of that kind whose chains do not all validate. It then removes an entity only when it has no role left, and a group only when it has neither entities nor groups left. So an entity whose IDPSSODescriptor fails but which also has an SPSSODescriptor survives with its SP role. A certificate that cannot be converted at all makes the filter return null, but only when it sits in a role of the chosen kind and is reached before any certificate of that role fails validation. Roles of other kinds are never converted, and a role's key descriptors after its first failing certificate are never looked at.
2. **The matching-dataset unmarshallers.**
   - The abstract `MatchingDatasetUnmarshaller`.
   - Its Verify, Country and eIDAS subclasses, which override `transformAttribute`.
   - The `MatchingDatasetBuilder` they fill.
   - The immutable `MatchingDataset` it builds.
   - The `IdentityProviderAssertionUnmarshaller`, which assembles an identity provider's assertion from them.

## How the model is built

**Metadata tree.** The metadata tree is a set of values (`EntityDescriptor`, `EntitiesDescriptor`, `XmlObject`). The filter is a class holding its role, its chain validator and its key store. Its methods mirror `filter`, `processEntityDescriptor`, `processEntityGroup` (split into its two loops, `ProcessEntities` and `ProcessChildGroups`) and `performCertificateChainValidation`. Each method is proved equal to a recursive specification function:
- `FilterResult`
- `EntityOutcome`
- `GroupOutcome`
- `CheckKeyDescriptors`

Lemmas about those functions then state what the filter promises:
- every surviving role of the chosen kind has valid chains;
- other roles are kept untouched;
- an already-trusted tree is returned as it is;
- the filter is idempotent;
- a conversion error reached while validating a role of the chosen kind yields `null`, and `null` comes back only then or when nothing survives;
- survivors keep their relative order, and every child that passes is kept.

`Processed` records how processing a node ends:
- `Kept` means the node is returned, pruned;
- `Rejected` means a `FilterException`, on which the caller removes the node;
- `Fatal` means a `CertificateConversionException`, which escapes to `filter`.

**Builder.** The builder is a class with the same eight fields. Each mutator states the whole new state: the six list fields are appended to, while `gender` and `personalId` are overwritten. `Snapshot()` is the dataset `build` would return.

**Dispatchers.** Each profile's `transformAttribute` is a method that dispatches on the attribute name, exactly as the Java `switch` does. It is proved against `Decode`. `Decode` is a pure function that gives the builder call (`Mutation`) the attribute causes, or the exception it throws (`Failure`: IllegalArgument with its message, ClassCast, IndexOutOfBounds).

**fromAssertion.** `fromAssertion` is a method with a loop over the first statement's attributes. It is proved equal to `FromAssertionSpec`, a fold (`Fold`) of `Apply` over the decoded mutations.

The general laws of the fold are proved once, for any decoder:
- the first exception aborts;
- appending fields gather contributions in attribute order;
- overwritten fields hold the last write.

They are then instantiated per profile (`VerifyDataset`, `CountryDataset`, `EidasDataset`). This gives the dataset an assertion produces, field by field, in terms of a reference definition by attribute name (`Collected`, `LastNamed`).

**Collaborators.** The collaborators whose code lies outside this model are taken as total functions and passed in as parameters (`Collaborators`, the chain validator, the authn-statement unmarshaller):
- `LocalDate.parse`
- `Gender.fromString`
- `AddressFactory.create`
- PKIX chain validation
- `IdentityProviderAuthnStatementUnmarshaller`

**Attribute names.** `IdaConstants` is not part of this model. The attribute names are written out in `SamlObjects`:
- the Verify names are `MDS_firstname`, `MDS_middlename` and so on;
- the eIDAS names are `http://eidas.europa.eu/attributes/naturalperson/` followed by `CurrentGivenName`, `CurrentFamilyName`, `DateOfBirth`, `PersonIdentifier`, `Gender` or `CurrentAddress`.

**Entry points.** `fromVerifyAssertion`, the deprecated `fromAssertion` and `fromCountryAssertion` are one-line functions (`FromVerifyAssertion`, `FromAssertion`, `FromCountryAssertion`) over `GetIdentityProviderAssertion`. `fromCountryAssertion` uses the eIDAS unmarshaller, not the Country one, as the Java code does.

Where the code and its declarations and comments or its tests disagree, the model follows the code:
- **`personalId` type.** `MatchingDataset` declares `personalId` as a `String`, yet `build` passes it the builder's list. The model keeps it as the list.
- **eIDAS Gender.** The eIDAS dispatcher has no Gender case and throws on a Gender attribute. Its test expects a Gender attribute to be ignored. See `GenderAttributeRejected`.
- **eIDAS personal identifier.** The eIDAS test expects the personal identifier to be set from `getPersonalIdentifier`. The base class never calls it, so the eIDAS dataset has no personal identifier (`EidasDataset`).

## Model


| member | source | states |
|---|---|---|
| CertificateChainValidation.Certificates | saml-metadata-bindings/src/main/java/uk/gov/ida/saml/metadata/CertificateChainValidationFilter.java:163-165 | the certificates of a KeyInfo are extracted all or nothing, in order: one unconvertible entry makes the extraction fail |
| CertificateChainValidation.CheckCertificates | saml-metadata-bindings/src/main/java/uk/gov/ida/saml/metadata/CertificateChainValidationFilter.java:165-170 | definition of the certificate loop; its meaning is given by `CheckCertificatesValid` and `CheckCertificatesFirstFailure` |
| CertificateChainValidation.CheckKeyDescriptors | saml-metadata-bindings/src/main/java/uk/gov/ida/saml/metadata/CertificateChainValidationFilter.java:161-175 | definition of `performCertificateChainValidation`; its meaning is given by `CheckKeyDescriptorsValid`, `CheckKeyDescriptorsStopsAtFailure` and `ConversionErrorAt` |
| CertificateChainValidation.CheckCertificatesValid | saml-metadata-bindings/src/main/java/uk/gov/ida/saml/metadata/CertificateChainValidationFilter.java:165-170 | the certificates of one key pass exactly when every one validates; this loop never reports a conversion error |
| CertificateChainValidation.CheckCertificatesFirstFailure | saml-metadata-bindings/src/main/java/uk/gov/ida/saml/metadata/CertificateChainValidationFilter.java:165-169 | a failed check reports the subject of the first certificate that does not validate, every earlier one having validated |
| CertificateChainValidation.CheckKeyDescriptorsValid | saml-metadata-bindings/src/main/java/uk/gov/ida/saml/metadata/CertificateChainValidationFilter.java:161-175 | a role passes validation if and only if every certificate of every key converts and validates |
| CertificateChainValidation.CheckKeyDescriptorsStopsAtFailure | saml-metadata-bindings/src/main/java/uk/gov/ida/saml/metadata/CertificateChainValidationFilter.java:166-173 | after the first failing key nothing later is looked at: appending keys does not change a failed outcome |
| CertificateChainValidation.ConversionErrorAt | saml-metadata-bindings/src/main/java/uk/gov/ida/saml/metadata/CertificateChainValidationFilter.java:171-173 | a conversion error escapes if and only if some key fails conversion and every key before it fully validates |
| CertificateChainValidation.CertificateChainValidationFilter.PerformCertificateChainValidation | saml-metadata-bindings/src/main/java/uk/gov/ida/saml/metadata/CertificateChainValidationFilter.java:161-175 | the two nested loops return exactly the outcome `CheckKeyDescriptors` specifies for the role's keys |
| CertificateChainValidation.RoleValidation | saml-metadata-bindings/src/main/java/uk/gov/ida/saml/metadata/CertificateChainValidationFilter.java:88 | definition: only roles whose element name is the configured one are validated; see `UncheckedRolesSurvive` and `EntityOutcomeKept` |
| CertificateChainValidation.SurvivingRoles | saml-metadata-bindings/src/main/java/uk/gov/ida/saml/metadata/CertificateChainValidationFilter.java:86-98 | the `removeIf` never makes the role list longer; which roles survive and in what order is given by `SurvivingRolesMembers`, `SurvivingRolesSplit` and `SurvivingRolesSingle` |
| CertificateChainValidation.SurvivingRolesMembers | saml-metadata-bindings/src/main/java/uk/gov/ida/saml/metadata/CertificateChainValidationFilter.java:86-98 | the roles kept are exactly those that are not of the checked kind or whose validation passes: none is added and none that passes is lost |
| CertificateChainValidation.SurvivingRolesSplit | saml-metadata-bindings/src/main/java/uk/gov/ida/saml/metadata/CertificateChainValidationFilter.java:86-98 | removal keeps the order of what is left: the survivors of a concatenation are the survivors of each part, one after the other |
| CertificateChainValidation.SurvivingRolesSingle | saml-metadata-bindings/src/main/java/uk/gov/ida/saml/metadata/CertificateChainValidationFilter.java:86-98 | a single role survives exactly when it is of another kind or its validation passes |
| CertificateChainValidation.UncheckedRolesSurvive | saml-metadata-bindings/src/main/java/uk/gov/ida/saml/metadata/CertificateChainValidationFilter.java:88-97 | roles of any other kind are kept untouched, in their order |
| CertificateChainValidation.AllRolesSurvive | saml-metadata-bindings/src/main/java/uk/gov/ida/saml/metadata/CertificateChainValidationFilter.java:86-98 | when every role survives, the role list is unchanged |
| CertificateChainValidation.EntityOutcome | saml-metadata-bindings/src/main/java/uk/gov/ida/saml/metadata/CertificateChainValidationFilter.java:80-103 | definition of `processEntityDescriptor`: fatal on a conversion error, rejected when no role survives, otherwise the entity with its surviving roles; see `EntityOutcomeKept`, `EntityTrustedIsKept` and `FilterNullIff` |
| CertificateChainValidation.EntityOutcomeKept | saml-metadata-bindings/src/main/java/uk/gov/ida/saml/metadata/CertificateChainValidationFilter.java:80-103 | a kept entity keeps its entity ID and its unchecked roles, its roles are exactly the surviving ones, every role that passes is still there, and every role of the checked kind it keeps is trusted; an entity without roles is rejected |
| CertificateChainValidation.EntityTrustedIsKept | saml-metadata-bindings/src/main/java/uk/gov/ida/saml/metadata/CertificateChainValidationFilter.java:80-103 | a non-empty entity whose checked roles all validate is returned unchanged |
| CertificateChainValidation.CertificateChainValidationFilter.ProcessEntityDescriptor | saml-metadata-bindings/src/main/java/uk/gov/ida/saml/metadata/CertificateChainValidationFilter.java:80-103 | the `removeIf` loop and the emptiness check give exactly `EntityOutcome`: pruned entity, FilterException or conversion error |
| CertificateChainValidation.KeptValues | saml-metadata-bindings/src/main/java/uk/gov/ida/saml/metadata/CertificateChainValidationFilter.java:123-126 | removing the rejected children leaves a list no longer than before, empty exactly when no child was kept, and holding only kept children; `KeptValuesComplete` and `KeptValuesSplit` add that every kept child is there, in order |
| CertificateChainValidation.KeptValuesComplete | saml-metadata-bindings/src/main/java/uk/gov/ida/saml/metadata/CertificateChainValidationFilter.java:123-126 | every child whose processing returned normally is in the list of kept children |
| CertificateChainValidation.KeptValuesSplit | saml-metadata-bindings/src/main/java/uk/gov/ida/saml/metadata/CertificateChainValidationFilter.java:123-126 | the kept children of a concatenation are those of each part, one after the other, so the children left keep their relative order |
| CertificateChainValidation.KeptValuesOfAllKept | saml-metadata-bindings/src/main/java/uk/gov/ida/saml/metadata/CertificateChainValidationFilter.java:123-126 | when every child is kept as it was, the list is unchanged |
| CertificateChainValidation.EntityOutcomes | saml-metadata-bindings/src/main/java/uk/gov/ida/saml/metadata/CertificateChainValidationFilter.java:113-121 | the outcomes of the first n entities, one per entity, each its own `EntityOutcome` |
| CertificateChainValidation.ChildGroupOutcomes | saml-metadata-bindings/src/main/java/uk/gov/ida/saml/metadata/CertificateChainValidationFilter.java:128-138 | one outcome per processed child group |
| CertificateChainValidation.ChildGroupOutcomeAt | saml-metadata-bindings/src/main/java/uk/gov/ida/saml/metadata/CertificateChainValidationFilter.java:128-138 | the outcome recorded for the j-th child group is that group's own `GroupOutcome` |
| CertificateChainValidation.GroupOutcome | saml-metadata-bindings/src/main/java/uk/gov/ida/saml/metadata/CertificateChainValidationFilter.java:105-147 | definition of `processEntityGroup`; see `GroupOutcomeTrusted`, `GroupKeepsKeptChildren`, `GroupTrustedIsKept`, `GroupFatalIff` and `GroupRejectedIff` |
| CertificateChainValidation.CertificateChainValidationFilter.ProcessEntities | saml-metadata-bindings/src/main/java/uk/gov/ida/saml/metadata/CertificateChainValidationFilter.java:113-126 | the entity loop escapes exactly when some entity's processing is fatal, and otherwise leaves exactly the kept entities, in order |
| CertificateChainValidation.CertificateChainValidationFilter.ProcessChildGroups | saml-metadata-bindings/src/main/java/uk/gov/ida/saml/metadata/CertificateChainValidationFilter.java:128-142 | the child-group loop escapes exactly when some child group's processing is fatal, and otherwise leaves exactly the kept child groups, in order |
| CertificateChainValidation.CertificateChainValidationFilter.ProcessEntityGroup | saml-metadata-bindings/src/main/java/uk/gov/ida/saml/metadata/CertificateChainValidationFilter.java:105-147 | processing a group gives exactly `GroupOutcome`: entities first, then child groups, then the emptiness check |
| CertificateChainValidation.GroupOutcomeTrusted | saml-metadata-bindings/src/main/java/uk/gov/ida/saml/metadata/CertificateChainValidationFilter.java:105-147 | a kept group is trusted throughout: every entity and nested group it still holds is trusted, and it is not empty |
| CertificateChainValidation.GroupKeepsKeptChildren | saml-metadata-bindings/src/main/java/uk/gov/ida/saml/metadata/CertificateChainValidationFilter.java:113-142 | a kept group keeps its name and ID and holds exactly the kept entities and kept nested groups, in order, so every entity and nested group that processing keeps is in it |
| CertificateChainValidation.GroupTrustedIsKept | saml-metadata-bindings/src/main/java/uk/gov/ida/saml/metadata/CertificateChainValidationFilter.java:105-147 | a group that is already trusted throughout is returned unchanged |
| CertificateChainValidation.GroupFatalIff | saml-metadata-bindings/src/main/java/uk/gov/ida/saml/metadata/CertificateChainValidationFilter.java:113-142 | processing a group is fatal if and only if a conversion error is reachable in the entities or child groups it processes |
| CertificateChainValidation.GroupRejectedIff | saml-metadata-bindings/src/main/java/uk/gov/ida/saml/metadata/CertificateChainValidationFilter.java:144-146 | a group is rejected if and only if nothing in it is fatal and each of its entities and child groups is rejected |
| CertificateChainValidation.FilterResult | saml-metadata-bindings/src/main/java/uk/gov/ida/saml/metadata/CertificateChainValidationFilter.java:59-78 | null stays null, and an object of an unsupported type is returned as it is |
| CertificateChainValidation.CertificateChainValidationFilter.Filter | saml-metadata-bindings/src/main/java/uk/gov/ida/saml/metadata/CertificateChainValidationFilter.java:59-78 | `filter` returns exactly `FilterResult` for the filter's role and validator |
| CertificateChainValidation.FilterEstablishesTrust | saml-metadata-bindings/src/main/java/uk/gov/ida/saml/metadata/CertificateChainValidationFilter.java:59-78 | whatever entity or group the filter returns is trusted throughout |
| CertificateChainValidation.FilterKeepsTrustedTree | saml-metadata-bindings/src/main/java/uk/gov/ida/saml/metadata/CertificateChainValidationFilter.java:59-78 | metadata that is already trusted throughout passes the filter unchanged |
| CertificateChainValidation.FilterIdempotent | saml-metadata-bindings/src/main/java/uk/gov/ida/saml/metadata/CertificateChainValidationFilter.java:59-78 | filtering the filter's output changes nothing |
| CertificateChainValidation.FilterNullIff | saml-metadata-bindings/src/main/java/uk/gov/ida/saml/metadata/CertificateChainValidationFilter.java:59-78 | the filter returns null for an entity if and only if it hits a conversion error or no role survives, and for a group if and only if a conversion error is reachable below it or it is rejected |
| CertificateChainValidation.GetGroupName | saml-metadata-bindings/src/main/java/uk/gov/ida/saml/metadata/CertificateChainValidationFilter.java:149-159 | the group's name, else its ID, else "(unnamed)" |
| CertificateChainValidation.CertificateChainValidationFilter.constructor | saml-metadata-bindings/src/main/java/uk/gov/ida/saml/metadata/CertificateChainValidationFilter.java:35-43 | the filter holds the role, validator and key store it was built with |
| MatchingDatasets.MatchingDataset.Addresses | saml-utils/src/main/java/uk/gov/ida/saml/core/domain/MatchingDataset.java:69-71 | `getAddresses` is all current addresses, then all previous ones, each group in its own order |
| MatchingDatasets.AddressesOrder | saml-utils/src/main/java/uk/gov/ida/saml/core/domain/MatchingDataset.java:69-71 | the i-th current and j-th previous address sit at positions i and (number of current addresses + j), current before previous |
| MatchingDatasetBuilders.MatchingDatasetBuilder.constructor | saml-utils/src/main/java/uk/gov/ida/saml/core/transformers/MatchingDatasetBuilder.java:16-23 | a fresh builder would build seven empty lists and no gender |
| MatchingDatasetBuilders.MatchingDatasetBuilder.Firstname | saml-utils/src/main/java/uk/gov/ida/saml/core/transformers/MatchingDatasetBuilder.java:25-27 | appends the names to the first names; nothing else changes |
| MatchingDatasetBuilders.MatchingDatasetBuilder.AddSurnames | saml-utils/src/main/java/uk/gov/ida/saml/core/transformers/MatchingDatasetBuilder.java:29-31 | appends to the surnames; nothing else changes |
| MatchingDatasetBuilders.MatchingDatasetBuilder.Gender | saml-utils/src/main/java/uk/gov/ida/saml/core/transformers/MatchingDatasetBuilder.java:33-35 | replaces the gender, a null argument clearing it; nothing else changes |
| MatchingDatasetBuilders.MatchingDatasetBuilder.DateOfBirth | saml-utils/src/main/java/uk/gov/ida/saml/core/transformers/MatchingDatasetBuilder.java:37-39 | appends to the dates of birth; nothing else changes |
| MatchingDatasetBuilders.MatchingDatasetBuilder.AddCurrentAddresses | saml-utils/src/main/java/uk/gov/ida/saml/core/transformers/MatchingDatasetBuilder.java:41-43 | appends to the current addresses; nothing else changes |
| MatchingDatasetBuilders.MatchingDatasetBuilder.PersonalId | saml-utils/src/main/java/uk/gov/ida/saml/core/transformers/MatchingDatasetBuilder.java:45-47 | replaces the personal-identifier list rather than appending; nothing else changes |
| MatchingDatasetBuilders.MatchingDatasetBuilder.Middlenames | saml-utils/src/main/java/uk/gov/ida/saml/core/transformers/MatchingDatasetBuilder.java:49-51 | appends to the middle names; nothing else changes |
| MatchingDatasetBuilders.MatchingDatasetBuilder.AddPreviousAddresses | saml-utils/src/main/java/uk/gov/ida/saml/core/transformers/MatchingDatasetBuilder.java:53-55 | appends to the previous addresses; nothing else changes |
| MatchingDatasetBuilders.MatchingDatasetBuilder.Build | saml-utils/src/main/java/uk/gov/ida/saml/core/transformers/MatchingDatasetBuilder.java:57-68 | `build` returns the dataset the constructor and the mutators so far describe (`Snapshot`) |
| MatchingDatasetBuilders.Apply | saml-utils/src/main/java/uk/gov/ida/saml/core/transformers/MatchingDatasetBuilder.java:25-55 | definition of each mutator's effect on the dataset `build` would give (list mutators append, `gender` and `personalId` overwrite), starting from `EmptyDataset`; the builder's methods are proved to perform it |
| MatchingDatasetUnmarshallerBase.CastEach | saml-utils/src/main/java/uk/gov/ida/saml/core/transformers/MatchingDatasetUnmarshaller.java:44-52 | the cast of every value of an attribute: succeeds exactly when every value has the right type, entry by entry; otherwise ClassCast |
| MatchingDatasetUnmarshallerBase.Fold | saml-utils/src/main/java/uk/gov/ida/saml/core/transformers/MatchingDatasetUnmarshaller.java:30-36 | definition of the attribute loop on values; see `FoldFails`, `FoldGathers` and `FoldLastWrite` |
| MatchingDatasetUnmarshallerBase.GetBirthdates | saml-utils/src/main/java/uk/gov/ida/saml/core/transformers/MatchingDatasetUnmarshaller.java:41-55 | one parsed date per string-based value, with from, to and verified copied; ClassCast on any other value |
| MatchingDatasetUnmarshallerBase.GetPersonalIds | saml-utils/src/main/java/uk/gov/ida/saml/core/transformers/MatchingDatasetUnmarshaller.java:57-66 | one entry per PersonIdentifier value, with no from or to and verified; ClassCast on any other value |
| MatchingDatasetUnmarshallerBase.TransformPersonNameAttribute | saml-utils/src/main/java/uk/gov/ida/saml/core/transformers/MatchingDatasetUnmarshaller.java:68-77 | one entry per PersonName value with its value, from, to and verified; ClassCast on any other value |
| MatchingDatasetUnmarshallerBase.FoldFails | saml-utils/src/main/java/uk/gov/ida/saml/core/transformers/MatchingDatasetUnmarshaller.java:32-34 | feeding the attributes succeeds if and only if every attribute does; a failure is the first failing attribute's exception |
| MatchingDatasetUnmarshallerBase.FoldGathers | saml-utils/src/main/java/uk/gov/ida/saml/core/transformers/MatchingDatasetUnmarshaller.java:30-36 | a field the mutators only append to ends up as its initial value followed by every attribute's addition, in attribute order |
| MatchingDatasetUnmarshallerBase.FoldLastWrite | saml-utils/src/main/java/uk/gov/ida/saml/core/transformers/MatchingDatasetUnmarshaller.java:30-36 | a field the mutators only overwrite ends up with the last write, or its initial value |
| MatchingDatasetUnmarshallerBase.LastNamed | saml-utils/src/main/java/uk/gov/ida/saml/core/transformers/MatchingDatasetUnmarshaller.java:32-34 | the position of the last attribute with a given name, or none exactly when no attribute has it |
| MatchingDatasetUnmarshallerBase.FirstNamed | saml-utils/src/main/java/uk/gov/ida/saml/core/transformers/EidasMatchingDatasetUnmarshaller.java:58-61 | the position of the first attribute with a given name, or none exactly when no attribute has it |
| MatchingDatasetUnmarshallerBase.GatheredByName | saml-utils/src/main/java/uk/gov/ida/saml/core/transformers/MatchingDatasetUnmarshaller.java:32-34 | when only attributes of one name add to a field, the field gathers exactly their contributions |
| MatchingDatasetUnmarshallerBase.LastWrittenByName | saml-utils/src/main/java/uk/gov/ida/saml/core/transformers/MatchingDatasetUnmarshaller.java:32-34 | when only attributes of one name write a field, it holds the last such attribute's value |
| MatchingDatasetUnmarshallerBase.NeverWritten | saml-utils/src/main/java/uk/gov/ida/saml/core/transformers/MatchingDatasetUnmarshaller.java:32-34 | a field no attribute writes keeps its value |
| VerifyMatchingDatasetUnmarshaller.Decode | saml-utils/src/main/java/uk/gov/ida/saml/core/transformers/VerifyMatchingDatasetUnmarshaller.java:25-63 | the seven Verify names are accepted and any other name throws IllegalArgumentException with the source's message; the success or exception of each accepted name; what each adds to each field (a name's own list, last-wins gender, never a personal identifier) |
| VerifyMatchingDatasetUnmarshaller.TransformAttribute | saml-utils/src/main/java/uk/gov/ida/saml/core/transformers/VerifyMatchingDatasetUnmarshaller.java:25-63 | performs exactly the builder call `Decode` gives, or throws and leaves the builder unchanged |
| VerifyMatchingDatasetUnmarshaller.Decoder | saml-utils/src/main/java/uk/gov/ida/saml/core/transformers/VerifyMatchingDatasetUnmarshaller.java:25-63 | `Decode` as a function value, for `Fold`; see `VerifyDataset` |
| VerifyMatchingDatasetUnmarshaller.VerifyDataset | saml-utils/src/main/java/uk/gov/ida/saml/core/transformers/VerifyMatchingDatasetUnmarshaller.java:27-56 | the dataset from Verify attributes: each list holds the entries of the attributes of its name in order, the gender is the last Gender attribute's, and there is no personal identifier |
| CountryMatchingDatasetUnmarshaller.Decode | saml-utils/src/main/java/uk/gov/ida/saml/core/transformers/CountryMatchingDatasetUnmarshaller.java:26-58 | the six eIDAS names are accepted and any other throws the "Eidas" message; each accepted name's success condition and exception; what each adds to each field, the personal identifier replaced by the attribute's identifiers |
| CountryMatchingDatasetUnmarshaller.TransformAttribute | saml-utils/src/main/java/uk/gov/ida/saml/core/transformers/CountryMatchingDatasetUnmarshaller.java:26-58 | performs exactly the builder call `Decode` gives, or throws and leaves the builder unchanged |
| CountryMatchingDatasetUnmarshaller.Decoder | saml-utils/src/main/java/uk/gov/ida/saml/core/transformers/CountryMatchingDatasetUnmarshaller.java:26-58 | `Decode` as a function value, for `Fold`; see `CountryDataset` |
| CountryMatchingDatasetUnmarshaller.CountryDataset | saml-utils/src/main/java/uk/gov/ida/saml/core/transformers/CountryMatchingDatasetUnmarshaller.java:28-52 | the dataset from a country's attributes: names, dates of birth and current addresses by attribute name in order, gender and personal identifiers from the last attribute of each name, and never a middle name or previous address |
| EidasMatchingDatasetUnmarshaller.TransformEidasGivenNameAttribute | saml-utils/src/main/java/uk/gov/ida/saml/core/transformers/EidasMatchingDatasetUnmarshaller.java:71-80 | one verified entry without dates per CurrentGivenName value; ClassCast on any other value |
| EidasMatchingDatasetUnmarshaller.TransformEidasFamilyNameAttribute | saml-utils/src/main/java/uk/gov/ida/saml/core/transformers/EidasMatchingDatasetUnmarshaller.java:82-91 | one verified entry without dates per CurrentFamilyName value; ClassCast on any other value |
| EidasMatchingDatasetUnmarshaller.TransformEidasDateOfBirthAttribute | saml-utils/src/main/java/uk/gov/ida/saml/core/transformers/EidasMatchingDatasetUnmarshaller.java:93-102 | one verified entry without dates per DateOfBirth value; ClassCast on any other value |
| EidasMatchingDatasetUnmarshaller.Decode | saml-utils/src/main/java/uk/gov/ida/saml/core/transformers/EidasMatchingDatasetUnmarshaller.java:31-54 | exactly four names are accepted (not Gender); PersonIdentifier causes no builder call; each name's success condition; what each adds to each field |
| EidasMatchingDatasetUnmarshaller.TransformAttribute | saml-utils/src/main/java/uk/gov/ida/saml/core/transformers/EidasMatchingDatasetUnmarshaller.java:31-54 | performs exactly the builder call `Decode` gives, or throws and leaves the builder unchanged |
| EidasMatchingDatasetUnmarshaller.Decoder | saml-utils/src/main/java/uk/gov/ida/saml/core/transformers/EidasMatchingDatasetUnmarshaller.java:31-54 | `Decode` as a function value, for `Fold`; see `EidasDataset` and `GenderAttributeRejected` |
| EidasMatchingDatasetUnmarshaller.GetPersonalIdentifier | saml-utils/src/main/java/uk/gov/ida/saml/core/transformers/EidasMatchingDatasetUnmarshaller.java:56-68 | IndexOutOfBounds without an attribute statement; the "No PersonalIdentifier" IllegalArgumentException if and only if no attribute has that name; on success, the first value of the first such attribute |
| EidasMatchingDatasetUnmarshaller.GetPersonalIdentifierFirst | saml-utils/src/main/java/uk/gov/ida/saml/core/transformers/EidasMatchingDatasetUnmarshaller.java:58-62 | the first PersonIdentifier attribute alone decides the result: its first value's identifier, IndexOutOfBounds when it has no value, ClassCast when that value is of another type |
| EidasMatchingDatasetUnmarshaller.EidasDataset | saml-utils/src/main/java/uk/gov/ida/saml/core/transformers/EidasMatchingDatasetUnmarshaller.java:31-54 | the dataset from eIDAS attributes: given names, family names and dates of birth by attribute name in order, and nothing else at all |
| EidasMatchingDatasetUnmarshaller.GenderAttributeRejected | saml-utils/src/main/java/uk/gov/ida/saml/core/transformers/EidasMatchingDatasetUnmarshaller.java:49-52 | an eIDAS Gender attribute anywhere in the statement makes the whole unmarshalling throw |
| MatchingDatasetUnmarshaller.FromAssertionSpec | saml-utils/src/main/java/uk/gov/ida/saml/core/transformers/MatchingDatasetUnmarshaller.java:23-37 | no dataset exactly when there is no attribute statement; a failure if and only if some attribute of the first statement throws, and then the first such attribute's exception; otherwise the dataset the first statement's attributes build |
| MatchingDatasetUnmarshaller.OnlyFirstStatementRead | saml-utils/src/main/java/uk/gov/ida/saml/core/transformers/MatchingDatasetUnmarshaller.java:30 | two assertions whose first attribute statements agree give the same result, whatever their later statements |
| MatchingDatasetUnmarshaller.TransformAttribute | saml-utils/src/main/java/uk/gov/ida/saml/core/transformers/MatchingDatasetUnmarshaller.java:39 | the overriding `transformAttribute` of the chosen subclass, with the same effect on the builder |
| MatchingDatasetUnmarshaller.Decoder | saml-utils/src/main/java/uk/gov/ida/saml/core/transformers/MatchingDatasetUnmarshaller.java:39 | the chosen subclass's decoder; see `FromAssertionSpec` |
| MatchingDatasetUnmarshaller.FromAssertion | saml-utils/src/main/java/uk/gov/ida/saml/core/transformers/MatchingDatasetUnmarshaller.java:23-37 | the loop over a fresh builder returns exactly `FromAssertionSpec` |
| IdentityProviderAssertions.IdentityProviderAssertionUnmarshaller.GetIdentityProviderAssertion | saml-utils/src/main/java/uk/gov/ida/saml/core/transformers/IdentityProviderAssertionUnmarshaller.java:46-90 | the cases in which it fails: a failing matching dataset (that exception first) or no subject confirmation (IndexOutOfBounds). The dataset is present exactly when the assertion has attributes and is not the hub's; the authn statement exactly when it has one and is not the hub's. Identifiers are copied and the restrictions come from the first confirmation |
| IdentityProviderAssertions.IdentityProviderAssertionUnmarshaller.AssertionContainsMatchingDataset | saml-utils/src/main/java/uk/gov/ida/saml/core/transformers/IdentityProviderAssertionUnmarshaller.java:75-78 | definition: the assertion has an attribute statement and is not the hub's; see `GetIdentityProviderAssertion` |
| IdentityProviderAssertions.IdentityProviderAssertionUnmarshaller.ContainsAuthnStatement | saml-utils/src/main/java/uk/gov/ida/saml/core/transformers/IdentityProviderAssertionUnmarshaller.java:80-82 | definition: the assertion has an authn statement; see `GetIdentityProviderAssertion` |
| IdentityProviderAssertions.IdentityProviderAssertionUnmarshaller.DoesAssertionContainAttributes | saml-utils/src/main/java/uk/gov/ida/saml/core/transformers/IdentityProviderAssertionUnmarshaller.java:84-86 | definition: the assertion has an attribute statement; see `GetIdentityProviderAssertion` |
| IdentityProviderAssertions.IdentityProviderAssertionUnmarshaller.IsNotCycle3AssertionFromHub | saml-utils/src/main/java/uk/gov/ida/saml/core/transformers/IdentityProviderAssertionUnmarshaller.java:88-90 | definition: the issuer is not the hub's entity ID; see `HubAssertionCarriesNothing` |
| IdentityProviderAssertions.IdentityProviderAssertionUnmarshaller.FromVerifyAssertion | saml-utils/src/main/java/uk/gov/ida/saml/core/transformers/IdentityProviderAssertionUnmarshaller.java:30-32 | definition: `GetIdentityProviderAssertion` with the Verify profile; see `DeprecatedFromAssertionIsVerify` |
| IdentityProviderAssertions.IdentityProviderAssertionUnmarshaller.FromAssertion | saml-utils/src/main/java/uk/gov/ida/saml/core/transformers/IdentityProviderAssertionUnmarshaller.java:38-40 | definition: the deprecated entry point; see `DeprecatedFromAssertionIsVerify` |
| IdentityProviderAssertions.IdentityProviderAssertionUnmarshaller.FromCountryAssertion | saml-utils/src/main/java/uk/gov/ida/saml/core/transformers/IdentityProviderAssertionUnmarshaller.java:42-44 | definition: `GetIdentityProviderAssertion` with the eIDAS profile, not the Country one |
| IdentityProviderAssertions.HubAssertionCarriesNothing | saml-utils/src/main/java/uk/gov/ida/saml/core/transformers/IdentityProviderAssertionUnmarshaller.java:50-55 | an assertion issued by the hub never carries a dataset or authn statement, and fails only for want of a subject confirmation |
| IdentityProviderAssertions.MatchingDatasetPresent | saml-utils/src/main/java/uk/gov/ida/saml/core/transformers/IdentityProviderAssertionUnmarshaller.java:50-52 | an identity provider's assertion with attributes that unmarshals successfully always carries the dataset its first statement builds |
| IdentityProviderAssertions.DeprecatedFromAssertionIsVerify | saml-utils/src/main/java/uk/gov/ida/saml/core/transformers/IdentityProviderAssertionUnmarshaller.java:38-40 | the deprecated `fromAssertion` agrees with `fromVerifyAssertion` on every assertion |

## Left out

- The filter's in-place mutation of the OpenSAML tree is modelled on values. `removeIf` and `removeAll` return the pruned lists instead of mutating them. Object identity, aliasing between the returned object and its input, and the HashSet of nodes to remove (identity-based) are not modelled.
- PKIX validation (`CertificateChainValidator.validate`), KeyInfo certificate extraction (`getCertificates`) and their exceptions. The validator is a parameter. Extraction is all-or-nothing per KeyInfo, and a failing entry stands for the CertificateException.
- `FilterIdempotent`, `FilterKeepsTrustedTree`: certificate validity is modelled as fixed in time. The validator is a pure function, whereas real PKIX validation depends on the clock (expiry) and on revocation data, so two runs of the filter may differ.
- Logging (every `LOG` call), and the filter's catch of `Throwable` for anything other than the conversion error.
- Null handling beyond the filter's own null check: null attributes, names, subjects, issuers and values, with the NullPointerExceptions they would raise.
- `LocalDate.parse`, `Gender.fromString` and `AddressFactory.create` are collaborators taken as total functions. Their own exceptions (an unparsable date, an unknown gender) are not modelled.
- `IdentityProviderAuthnStatementUnmarshaller` is a collaborator taken as a total function. `IdentityProviderAuthnStatement` is reduced to one field.
- `IdaConstants` is not part of this model. The attribute-name values are assumed as written above.
- `MessageFormat` quoting rules are not modelled: the attribute name is inserted into the message verbatim.
- `EidasMetadataResolverRepository`, `AttributeQueryBuilder`, `CurrentGivenNameMarshaller`, `NamelessPKIXValidationInformationResolver` and `FileBackedTrustStoreConfiguration` are outside the modelled core.
- The builder keeps its own copies of the lists. Java hands the builder's mutable lists to the dataset, so later mutation of the builder would show through. The model does not capture that aliasing.
- `MatchingDataset`'s getters are its datatype's destructors, so they carry no contracts of their own.
- `MatchingDataset` stores `personalId` as the builder's list, not as the `String` its declaration says.
- `getPersonalIdentifier` is modelled on its own. It is not wired into `fromAssertion`, because the base class never calls it.
- `FromVerifyAssertion`, `FromAssertion` and `FromCountryAssertion` carry no contracts of their own. They only select the profile passed to `GetIdentityProviderAssertion`.
