/**
 * The certificate-chain validation metadata filter.
 *
 * The filter walks a SAML 2.0 metadata tree (OASIS SAML V2.0 Metadata:
 * EntitiesDescriptor section 2.3.1, EntityDescriptor section 2.3.2,
 * RoleDescriptor section 2.4.1, KeyDescriptor section 2.4.1.1) and prunes every
 * role of the configured element name whose certificates do not all pass PKIX
 * validation (RFC 5280 section 6) against a trust store, then every entity left
 * without roles and every group left without members.  A certificate that
 * cannot even be converted aborts the whole filter, which then yields null,
 * but only when it sits in a role of the configured element name and is
 * reached before any certificate of that role fails validation: other roles
 * are never converted, and a role's walk ends at its first failing certificate.
 *
 * The tree is modelled on values: `ProcessEntityDescriptor` and
 * `ProcessEntityGroup` return the pruned node (or the exception they throw)
 * instead of pruning the caller's object in place.
 */
module CertificateChainValidation {
  import opened Wrappers

  /** An XML element name. */
  datatype QName = QName(namespaceUri: string, localPart: string)

  /** A decoded X.509 certificate; only its subject is ever read by the filter. */
  datatype Certificate = Certificate(subjectDn: string, encoded: seq<int>)

  /** One certificate entry of a KeyInfo: decodable, or failing X.509 conversion. */
  datatype CertificateData = X509(certificate: Certificate) | Unconvertible

  /** A KeyDescriptor, reduced to the certificate entries of its KeyInfo. */
  datatype KeyDescriptor = KeyDescriptor(keyInfo: seq<CertificateData>)

  /** A RoleDescriptor (IDPSSODescriptor, SPSSODescriptor, ...) and its keys. */
  datatype RoleDescriptor = RoleDescriptor(elementQName: QName, keyDescriptors: seq<KeyDescriptor>)

  /** An EntityDescriptor and its roles, in document order. */
  datatype EntityDescriptor = EntityDescriptor(entityId: string, roles: seq<RoleDescriptor>)

  /** An EntitiesDescriptor: a named group of entities and nested groups. */
  datatype EntitiesDescriptor = EntitiesDescriptor(
    name: Option<string>,
    id: Option<string>,
    entities: seq<EntityDescriptor>,
    groups: seq<EntitiesDescriptor>)

  /** The root handed to the filter: an entity, a group, or any other XML object. */
  datatype XmlObject =
    | Entity(entity: EntityDescriptor)
    | Group(group: EntitiesDescriptor)
    | Other(elementQName: QName)

  /** The trust store the validator checks chains against. */
  datatype KeyStore = KeyStore(trustAnchors: seq<Certificate>)

  /**
   * How the validation of one role ends: it passes, it throws a FilterException
   * naming the first failing certificate, or it throws
   * CertificateConversionException (which is not a FilterException).
   */
  datatype Validation = Valid | Invalid(subjectDn: string) | ConversionError

  /**
   * How processing a node ends: it returns (with the pruned node), it throws
   * FilterException (the caller removes the node), or a conversion error escapes.
   */
  datatype Processed<+T> = Kept(value: T) | Rejected | Fatal

  // ---------------------------------------------------------------------------
  // Certificates of a key descriptor and their validation
  // ---------------------------------------------------------------------------

  /**
   * The certificates of a KeyInfo, which are converted all at once: one entry
   * that fails X.509 conversion makes the whole extraction fail.
   */
  function Certificates(kd: KeyDescriptor): (r: Option<seq<Certificate>>)
    ensures r.Some? <==> forall i :: 0 <= i < |kd.keyInfo| ==> kd.keyInfo[i].X509?
    ensures r.Some? ==> |r.value| == |kd.keyInfo|
    ensures r.Some? ==> forall i :: 0 <= i < |kd.keyInfo| ==> r.value[i] == kd.keyInfo[i].certificate
  {
    if forall i :: 0 <= i < |kd.keyInfo| ==> kd.keyInfo[i].X509? then
      Some(seq(|kd.keyInfo|, i requires 0 <= i < |kd.keyInfo| => kd.keyInfo[i].certificate))
    else
      None
  }

  /** Validation of a list of certificates, stopping at the first that fails. */
  function CheckCertificates(valid: Certificate -> bool, cs: seq<Certificate>): Validation
  {
    if cs == [] then Valid
    else if !valid(cs[0]) then Invalid(cs[0].subjectDn)
    else CheckCertificates(valid, cs[1..])
  }

  /**
   * Validation of the key descriptors of a role, in order: each key
   * descriptor's certificates are extracted and then checked one by one, and the
   * first failure of either kind ends the walk.
   */
  function CheckKeyDescriptors(valid: Certificate -> bool, kds: seq<KeyDescriptor>): Validation
  {
    if kds == [] then Valid
    else
      match Certificates(kds[0])
      case None => ConversionError
      case Some(cs) =>
        var head := CheckCertificates(valid, cs);
        if head.Valid? then CheckKeyDescriptors(valid, kds[1..]) else head
  }

  /** Every certificate entry of every key descriptor converts and validates. */
  predicate AllCertificatesValid(valid: Certificate -> bool, kds: seq<KeyDescriptor>)
  {
    forall k, i :: 0 <= k < |kds| && 0 <= i < |kds[k].keyInfo| ==>
      kds[k].keyInfo[i].X509? && valid(kds[k].keyInfo[i].certificate)
  }

  lemma {:induction false} CheckCertificatesValid(valid: Certificate -> bool, cs: seq<Certificate>)
    ensures CheckCertificates(valid, cs).Valid? <==> forall i :: 0 <= i < |cs| ==> valid(cs[i])
    ensures !CheckCertificates(valid, cs).ConversionError?
  {
    if cs != [] {
      CheckCertificatesValid(valid, cs[1..]);
      assert forall i :: 1 <= i < |cs| ==> cs[i] == cs[1..][i - 1];
    }
  }

  /** A failed check names the first certificate that does not validate: every one before it does. */
  lemma {:induction false} CheckCertificatesFirstFailure(valid: Certificate -> bool, cs: seq<Certificate>)
    ensures CheckCertificates(valid, cs).Invalid? ==>
      exists k :: 0 <= k < |cs| && !valid(cs[k]) && CheckCertificates(valid, cs).subjectDn == cs[k].subjectDn &&
        forall j :: 0 <= j < k ==> valid(cs[j])
  {
    if cs != [] && valid(cs[0]) {
      CheckCertificatesFirstFailure(valid, cs[1..]);
      if CheckCertificates(valid, cs).Invalid? {
        var k :| 0 <= k < |cs[1..]| && !valid(cs[1..][k]) && CheckCertificates(valid, cs[1..]).subjectDn == cs[1..][k].subjectDn &&
          forall j :: 0 <= j < k ==> valid(cs[1..][j]);
        assert forall j :: 1 <= j < k + 1 ==> cs[j] == cs[1..][j - 1];
        assert !valid(cs[k + 1]);
      }
    } else if cs != [] {
      assert !valid(cs[0]);
    }
  }

  /** A role's key descriptors pass exactly when every certificate in them converts and validates. */
  lemma {:induction false} CheckKeyDescriptorsValid(valid: Certificate -> bool, kds: seq<KeyDescriptor>)
    ensures CheckKeyDescriptors(valid, kds).Valid? <==> AllCertificatesValid(valid, kds)
  {
    if kds != [] {
      CheckKeyDescriptorsValid(valid, kds[1..]);
      assert forall k :: 1 <= k < |kds| ==> kds[k] == kds[1..][k - 1];
      match Certificates(kds[0])
      case None =>
      case Some(cs) => CheckCertificatesValid(valid, cs);
    }
  }

  /**
   * Short-circuit: once a key descriptor fails (a failing certificate or a
   * conversion error), the key descriptors after it are never looked at, so they
   * cannot change the outcome, not even by holding unconvertible certificates.
   */
  lemma {:induction false} CheckKeyDescriptorsStopsAtFailure(valid: Certificate -> bool, kds: seq<KeyDescriptor>, later: seq<KeyDescriptor>)
    requires !CheckKeyDescriptors(valid, kds).Valid?
    ensures CheckKeyDescriptors(valid, kds + later) == CheckKeyDescriptors(valid, kds)
  {
    assert (kds + later)[0] == kds[0];
    assert (kds + later)[1..] == kds[1..] + later;
    match Certificates(kds[0])
    case None =>
    case Some(cs) =>
      if CheckCertificates(valid, cs).Valid? {
        CheckKeyDescriptorsStopsAtFailure(valid, kds[1..], later);
      }
  }

  /**
   * A conversion error is raised exactly when some key descriptor fails to
   * convert and every key descriptor before it converted and validated.
   */
  lemma {:induction false} ConversionErrorAt(valid: Certificate -> bool, kds: seq<KeyDescriptor>)
    ensures CheckKeyDescriptors(valid, kds).ConversionError? <==>
      exists k :: 0 <= k < |kds| && Certificates(kds[k]).None? && AllCertificatesValid(valid, kds[..k])
  {
    if kds != [] {
      ConversionErrorAt(valid, kds[1..]);
      match Certificates(kds[0])
      case None =>
        assert kds[..0] == [];
      case Some(cs) =>
        CheckCertificatesValid(valid, cs);
        if CheckCertificates(valid, cs).Valid? {
          if CheckKeyDescriptors(valid, kds[1..]).ConversionError? {
            var k :| 0 <= k < |kds[1..]| && Certificates(kds[1..][k]).None? && AllCertificatesValid(valid, kds[1..][..k]);
            assert kds[..k + 1] == [kds[0]] + kds[1..][..k];
            assert AllCertificatesValid(valid, kds[..k + 1]);
          }
          if exists k :: 0 <= k < |kds| && Certificates(kds[k]).None? && AllCertificatesValid(valid, kds[..k]) {
            var k :| 0 <= k < |kds| && Certificates(kds[k]).None? && AllCertificatesValid(valid, kds[..k]);
            assert k != 0;
            assert kds[1..][..k - 1] == kds[1..k];
            assert forall m :: 0 <= m < k - 1 ==> kds[1..k][m] == kds[..k][m + 1];
            assert AllCertificatesValid(valid, kds[1..][..k - 1]);
          }
        } else {
          forall k | 0 <= k < |kds| && Certificates(kds[k]).None?
            ensures !AllCertificatesValid(valid, kds[..k])
          {
            assert k != 0;
            var i :| 0 <= i < |cs| && !valid(cs[i]);
            assert kds[..k][0] == kds[0];
            assert !(kds[..k][0].keyInfo[i].X509? && valid(kds[..k][0].keyInfo[i].certificate));
          }
        }
    }
  }

  // ---------------------------------------------------------------------------
  // Roles and entities
  // ---------------------------------------------------------------------------

  /** Only roles of the configured element name are validated; all others pass unexamined. */
  function RoleValidation(role: QName, valid: Certificate -> bool, rd: RoleDescriptor): Validation
  {
    if rd.elementQName == role then CheckKeyDescriptors(valid, rd.keyDescriptors) else Valid
  }

  predicate RoleSurvives(role: QName, valid: Certificate -> bool, rd: RoleDescriptor)
  {
    RoleValidation(role, valid, rd).Valid?
  }

  /** The roles that are not removed, in their original order. */
  function SurvivingRoles(role: QName, valid: Certificate -> bool, rs: seq<RoleDescriptor>): (r: seq<RoleDescriptor>)
    ensures |r| <= |rs|
  {
    if rs == [] then []
    else
      var last := rs[|rs| - 1];
      SurvivingRoles(role, valid, rs[..|rs| - 1]) + (if RoleSurvives(role, valid, last) then [last] else [])
  }

  /** The survivors are exactly the roles that pass: none is added and none that passes is lost. */
  lemma {:induction false} SurvivingRolesMembers(role: QName, valid: Certificate -> bool, rs: seq<RoleDescriptor>)
    ensures forall x :: x in SurvivingRoles(role, valid, rs) <==> x in rs && RoleSurvives(role, valid, x)
  {
    if rs != [] {
      var last := rs[|rs| - 1];
      SurvivingRolesMembers(role, valid, rs[..|rs| - 1]);
      assert rs == rs[..|rs| - 1] + [last];
    }
  }

  /**
   * Removal keeps the order of what is left: the survivors of a concatenation
   * are the survivors of each part, one after the other.  With the one-role
   * case this fixes `SurvivingRoles` completely.
   */
  lemma {:induction false} SurvivingRolesSplit(role: QName, valid: Certificate -> bool, rs: seq<RoleDescriptor>, ss: seq<RoleDescriptor>)
    ensures SurvivingRoles(role, valid, rs + ss) == SurvivingRoles(role, valid, rs) + SurvivingRoles(role, valid, ss)
    decreases |ss|
  {
    if ss == [] {
      assert rs + ss == rs;
    } else {
      var init, last := ss[..|ss| - 1], ss[|ss| - 1];
      assert (rs + ss)[..|rs + ss| - 1] == rs + init;
      assert (rs + ss)[|rs + ss| - 1] == last;
      SurvivingRolesSplit(role, valid, rs, init);
    }
  }

  /** One role on its own survives exactly when it passes. */
  lemma SurvivingRolesSingle(role: QName, valid: Certificate -> bool, rd: RoleDescriptor)
    ensures SurvivingRoles(role, valid, [rd]) == if RoleSurvives(role, valid, rd) then [rd] else []
  {
    assert [rd][..0] == [];
  }

  /** The roles of any element name other than the configured one, in order. */
  function UncheckedRoles(role: QName, rs: seq<RoleDescriptor>): seq<RoleDescriptor>
  {
    if rs == [] then []
    else
      var last := rs[|rs| - 1];
      UncheckedRoles(role, rs[..|rs| - 1]) + (if last.elementQName != role then [last] else [])
  }

  /** Some role of the configured element name hits a certificate conversion error. */
  predicate HasConversionError(role: QName, valid: Certificate -> bool, rs: seq<RoleDescriptor>)
  {
    exists i :: 0 <= i < |rs| && RoleValidation(role, valid, rs[i]).ConversionError?
  }

  /**
   * Processing one entity: failing roles are removed, a conversion error escapes
   * (the per-role catch only absorbs FilterException), and an entity left with
   * no roles at all is rejected.
   */
  function EntityOutcome(role: QName, valid: Certificate -> bool, e: EntityDescriptor): Processed<EntityDescriptor>
  {
    if HasConversionError(role, valid, e.roles) then Fatal
    else
      var kept := SurvivingRoles(role, valid, e.roles);
      if kept == [] then Rejected else Kept(e.(roles := kept))
  }

  /** A role either is of another element name or has only valid certificates. */
  predicate RoleTrusted(role: QName, valid: Certificate -> bool, rd: RoleDescriptor)
  {
    rd.elementQName == role ==> AllCertificatesValid(valid, rd.keyDescriptors)
  }

  /** An entity that has a role and whose every role is trusted. */
  predicate EntityTrusted(role: QName, valid: Certificate -> bool, e: EntityDescriptor)
  {
    && |e.roles| > 0
    && forall i :: 0 <= i < |e.roles| ==> RoleTrusted(role, valid, e.roles[i])
  }

  lemma {:induction false} UncheckedRolesSurvive(role: QName, valid: Certificate -> bool, rs: seq<RoleDescriptor>)
    ensures UncheckedRoles(role, SurvivingRoles(role, valid, rs)) == UncheckedRoles(role, rs)
  {
    if rs != [] {
      var init, last := rs[..|rs| - 1], rs[|rs| - 1];
      UncheckedRolesSurvive(role, valid, init);
      var s := SurvivingRoles(role, valid, init);
      if RoleSurvives(role, valid, last) {
        assert (s + [last])[..|s|] == s;
      } else {
        assert s + [] == s;
      }
    }
  }

  lemma {:induction false} AllRolesSurvive(role: QName, valid: Certificate -> bool, rs: seq<RoleDescriptor>)
    requires forall i :: 0 <= i < |rs| ==> RoleSurvives(role, valid, rs[i])
    ensures SurvivingRoles(role, valid, rs) == rs
  {
    if rs != [] {
      AllRolesSurvive(role, valid, rs[..|rs| - 1]);
    }
  }

  /**
   * What survives of an entity: it keeps its ID, every role left is trusted,
   * the roles of other element names are all still there in their order, and
   * an entity without any role is rejected outright.
   */
  lemma EntityOutcomeKept(role: QName, valid: Certificate -> bool, e: EntityDescriptor)
    ensures EntityOutcome(role, valid, e).Kept? ==>
      var e' := EntityOutcome(role, valid, e).value;
      && e'.entityId == e.entityId
      && EntityTrusted(role, valid, e')
      && UncheckedRoles(role, e'.roles) == UncheckedRoles(role, e.roles)
      && e'.roles == SurvivingRoles(role, valid, e.roles)
      && forall i :: 0 <= i < |e.roles| && RoleSurvives(role, valid, e.roles[i]) ==> e.roles[i] in e'.roles
    ensures |e.roles| == 0 ==> EntityOutcome(role, valid, e) == Rejected
  {
    if EntityOutcome(role, valid, e).Kept? {
      var kept := SurvivingRoles(role, valid, e.roles);
      SurvivingRolesMembers(role, valid, e.roles);
      forall i | 0 <= i < |kept| ensures RoleTrusted(role, valid, kept[i]) {
        assert kept[i] in kept;
        CheckKeyDescriptorsValid(valid, kept[i].keyDescriptors);
      }
      UncheckedRolesSurvive(role, valid, e.roles);
    }
  }

  /** An entity that is already trusted comes out of processing unchanged. */
  lemma EntityTrustedIsKept(role: QName, valid: Certificate -> bool, e: EntityDescriptor)
    requires EntityTrusted(role, valid, e)
    ensures EntityOutcome(role, valid, e) == Kept(e)
  {
    forall i | 0 <= i < |e.roles|
      ensures RoleSurvives(role, valid, e.roles[i])
    {
      CheckKeyDescriptorsValid(valid, e.roles[i].keyDescriptors);
    }
    AllRolesSurvive(role, valid, e.roles);
  }

  // ---------------------------------------------------------------------------
  // Groups
  // ---------------------------------------------------------------------------

  predicate AnyFatal<T>(outs: seq<Processed<T>>)
  {
    exists i :: 0 <= i < |outs| && outs[i].Fatal?
  }

  /** The nodes whose processing returned normally, in their original order. */
  function KeptValues<T(==,!new)>(outs: seq<Processed<T>>): (r: seq<T>)
    ensures |r| <= |outs|
    ensures r == [] <==> forall i :: 0 <= i < |outs| ==> !outs[i].Kept?
    ensures forall k :: 0 <= k < |r| ==> Kept(r[k]) in outs
  {
    if outs == [] then []
    else
      var last := outs[|outs| - 1];
      KeptValues(outs[..|outs| - 1]) + (if last.Kept? then [last.value] else [])
  }

  lemma {:induction false} KeptValuesOfAllKept<T(!new)>(outs: seq<Processed<T>>, xs: seq<T>)
    requires |outs| == |xs|
    requires forall i :: 0 <= i < |xs| ==> outs[i] == Kept(xs[i])
    ensures KeptValues(outs) == xs
  {
    if xs != [] {
      KeptValuesOfAllKept(outs[..|outs| - 1], xs[..|xs| - 1]);
    }
  }

  /** Processing one more node extends the kept list by its value, if it was kept. */
  lemma KeptValuesAppend<T(!new)>(outs: seq<Processed<T>>, o: Processed<T>)
    ensures KeptValues(outs + [o]) == KeptValues(outs) + (if o.Kept? then [o.value] else [])
  {
    assert (outs + [o])[..|outs|] == outs;
  }

  /** Every child whose processing returned normally is still there. */
  lemma {:induction false} KeptValuesComplete<T(!new)>(outs: seq<Processed<T>>)
    ensures forall i :: 0 <= i < |outs| && outs[i].Kept? ==> outs[i].value in KeptValues(outs)
  {
    if outs != [] {
      var init := outs[..|outs| - 1];
      KeptValuesComplete(init);
      assert forall i :: 0 <= i < |init| ==> outs[i] == init[i];
    }
  }

  /** The kept values of a concatenation are those of each part, one after the other. */
  lemma {:induction false} KeptValuesSplit<T(!new)>(outs: seq<Processed<T>>, more: seq<Processed<T>>)
    ensures KeptValues(outs + more) == KeptValues(outs) + KeptValues(more)
    decreases |more|
  {
    if more == [] {
      assert outs + more == outs;
    } else {
      var init, last := more[..|more| - 1], more[|more| - 1];
      assert (outs + more)[..|outs + more| - 1] == outs + init;
      assert (outs + more)[|outs + more| - 1] == last;
      KeptValuesSplit(outs, init);
    }
  }

  lemma AnyFatalAppend<T>(outs: seq<Processed<T>>, o: Processed<T>)
    ensures AnyFatal(outs + [o]) <==> AnyFatal(outs) || o.Fatal?
  {
    if AnyFatal(outs) {
      var i :| 0 <= i < |outs| && outs[i].Fatal?;
      assert (outs + [o])[i] == outs[i];
    }
    assert (outs + [o])[|outs|] == o;
  }

  /** The outcomes of processing the first `n` entities of a list, in order. */
  function EntityOutcomes(role: QName, valid: Certificate -> bool, es: seq<EntityDescriptor>, n: nat): (r: seq<Processed<EntityDescriptor>>)
    requires n <= |es|
    ensures |r| == n
    ensures forall i :: 0 <= i < n ==> r[i] == EntityOutcome(role, valid, es[i])
  {
    if n == 0 then [] else EntityOutcomes(role, valid, es, n - 1) + [EntityOutcome(role, valid, es[n - 1])]
  }

  /** The outcomes of processing the first `n` nested groups of `g`, in order. */
  function ChildGroupOutcomes(role: QName, valid: Certificate -> bool, g: EntitiesDescriptor, n: nat): (r: seq<Processed<EntitiesDescriptor>>)
    requires n <= |g.groups|
    ensures |r| == n
    decreases g, 0, n
  {
    if n == 0 then []
    else ChildGroupOutcomes(role, valid, g, n - 1) + [GroupOutcome(role, valid, g.groups[n - 1])]
  }

  lemma {:induction false} ChildGroupOutcomeAt(role: QName, valid: Certificate -> bool, g: EntitiesDescriptor, n: nat, j: nat)
    requires j < n <= |g.groups|
    ensures ChildGroupOutcomes(role, valid, g, n)[j] == GroupOutcome(role, valid, g.groups[j])
    decreases n
  {
    if j < n - 1 {
      ChildGroupOutcomeAt(role, valid, g, n - 1, j);
    }
  }

  /**
   * Processing one group: its entities first (rejected ones are removed), then
   * its nested groups (rejected ones are removed); a conversion error from any
   * of them escapes, and a group left with neither entities nor groups is
   * rejected.
   */
  function GroupOutcome(role: QName, valid: Certificate -> bool, g: EntitiesDescriptor): Processed<EntitiesDescriptor>
    decreases g, 1, 0
  {
    var es := EntityOutcomes(role, valid, g.entities, |g.entities|);
    var gs := ChildGroupOutcomes(role, valid, g, |g.groups|);
    if AnyFatal(es) || AnyFatal(gs) then Fatal
    else
      var keptEntities := KeptValues(es);
      var keptGroups := KeptValues(gs);
      if keptEntities == [] && keptGroups == [] then Rejected
      else Kept(g.(entities := keptEntities, groups := keptGroups))
  }

  /** A non-empty group whose every entity and nested group is trusted. */
  predicate GroupTrusted(role: QName, valid: Certificate -> bool, g: EntitiesDescriptor)
    decreases g
  {
    && (|g.entities| > 0 || |g.groups| > 0)
    && (forall i :: 0 <= i < |g.entities| ==> EntityTrusted(role, valid, g.entities[i]))
    && (forall j :: 0 <= j < |g.groups| ==> GroupTrusted(role, valid, g.groups[j]))
  }

  /** Some entity at any depth below the group hits a certificate conversion error. */
  predicate ReachesConversionError(role: QName, valid: Certificate -> bool, g: EntitiesDescriptor)
    decreases g
  {
    || (exists i :: 0 <= i < |g.entities| && HasConversionError(role, valid, g.entities[i].roles))
    || (exists j :: 0 <= j < |g.groups| && ReachesConversionError(role, valid, g.groups[j]))
  }

  /** Everything a group keeps is trusted: the filter's postcondition on the tree. */
  lemma {:induction false} GroupOutcomeTrusted(role: QName, valid: Certificate -> bool, g: EntitiesDescriptor)
    ensures GroupOutcome(role, valid, g).Kept? ==> GroupTrusted(role, valid, GroupOutcome(role, valid, g).value)
    decreases g
  {
    var es := EntityOutcomes(role, valid, g.entities, |g.entities|);
    var gs := ChildGroupOutcomes(role, valid, g, |g.groups|);
    if GroupOutcome(role, valid, g).Kept? {
      var g' := GroupOutcome(role, valid, g).value;
      forall i | 0 <= i < |g'.entities| ensures EntityTrusted(role, valid, g'.entities[i]) {
        var k :| 0 <= k < |es| && es[k] == Kept(g'.entities[i]);
        EntityOutcomeKept(role, valid, g.entities[k]);
      }
      forall j | 0 <= j < |g'.groups| ensures GroupTrusted(role, valid, g'.groups[j]) {
        var k :| 0 <= k < |gs| && gs[k] == Kept(g'.groups[j]);
        ChildGroupOutcomeAt(role, valid, g, |g.groups|, k);
        GroupOutcomeTrusted(role, valid, g.groups[k]);
      }
    }
  }

  /**
   * What a kept group holds: its name and ID, then exactly the kept entities and
   * the kept nested groups, in their order; so every entity and every nested
   * group that processing keeps is in the result.
   */
  lemma {:induction false} GroupKeepsKeptChildren(role: QName, valid: Certificate -> bool, g: EntitiesDescriptor)
    requires GroupOutcome(role, valid, g).Kept?
    ensures var g' := GroupOutcome(role, valid, g).value;
      && g'.name == g.name && g'.id == g.id
      && g'.entities == KeptValues(EntityOutcomes(role, valid, g.entities, |g.entities|))
      && g'.groups == KeptValues(ChildGroupOutcomes(role, valid, g, |g.groups|))
    ensures var g' := GroupOutcome(role, valid, g).value;
      forall i :: 0 <= i < |g.entities| && EntityOutcome(role, valid, g.entities[i]).Kept? ==>
        EntityOutcome(role, valid, g.entities[i]).value in g'.entities
    ensures var g' := GroupOutcome(role, valid, g).value;
      forall j :: 0 <= j < |g.groups| && GroupOutcome(role, valid, g.groups[j]).Kept? ==>
        GroupOutcome(role, valid, g.groups[j]).value in g'.groups
  {
    var es := EntityOutcomes(role, valid, g.entities, |g.entities|);
    var gs := ChildGroupOutcomes(role, valid, g, |g.groups|);
    KeptValuesComplete(es);
    KeptValuesComplete(gs);
    forall j | 0 <= j < |g.groups| ensures gs[j] == GroupOutcome(role, valid, g.groups[j]) {
      ChildGroupOutcomeAt(role, valid, g, |g.groups|, j);
    }
  }

  /** A group that is already trusted comes out of processing unchanged. */
  lemma {:induction false} GroupTrustedIsKept(role: QName, valid: Certificate -> bool, g: EntitiesDescriptor)
    requires GroupTrusted(role, valid, g)
    ensures GroupOutcome(role, valid, g) == Kept(g)
    decreases g
  {
    var es := EntityOutcomes(role, valid, g.entities, |g.entities|);
    var gs := ChildGroupOutcomes(role, valid, g, |g.groups|);
    forall i | 0 <= i < |g.entities| ensures es[i] == Kept(g.entities[i]) {
      EntityTrustedIsKept(role, valid, g.entities[i]);
    }
    forall j | 0 <= j < |g.groups| ensures gs[j] == Kept(g.groups[j]) {
      ChildGroupOutcomeAt(role, valid, g, |g.groups|, j);
      GroupTrustedIsKept(role, valid, g.groups[j]);
    }
    KeptValuesOfAllKept(es, g.entities);
    KeptValuesOfAllKept(gs, g.groups);
    assert !AnyFatal(es) && !AnyFatal(gs);
  }

  /** A conversion error anywhere below a group escapes from the group, and only then. */
  lemma {:induction false} GroupFatalIff(role: QName, valid: Certificate -> bool, g: EntitiesDescriptor)
    ensures GroupOutcome(role, valid, g).Fatal? <==> ReachesConversionError(role, valid, g)
    decreases g
  {
    var gs := ChildGroupOutcomes(role, valid, g, |g.groups|);
    forall j | 0 <= j < |g.groups| ensures gs[j].Fatal? <==> ReachesConversionError(role, valid, g.groups[j]) {
      ChildGroupOutcomeAt(role, valid, g, |g.groups|, j);
      GroupFatalIff(role, valid, g.groups[j]);
    }
  }

  /**
   * A group is rejected exactly when nothing below it is fatal and every one of
   * its entities and nested groups is rejected (vacuously so when it is empty).
   */
  lemma GroupRejectedIff(role: QName, valid: Certificate -> bool, g: EntitiesDescriptor)
    ensures GroupOutcome(role, valid, g) == Rejected <==>
      && !ReachesConversionError(role, valid, g)
      && (forall i :: 0 <= i < |g.entities| ==> EntityOutcome(role, valid, g.entities[i]) == Rejected)
      && (forall j :: 0 <= j < |g.groups| ==> GroupOutcome(role, valid, g.groups[j]) == Rejected)
  {
    GroupFatalIff(role, valid, g);
    var es := EntityOutcomes(role, valid, g.entities, |g.entities|);
    var gs := ChildGroupOutcomes(role, valid, g, |g.groups|);
    forall j | 0 <= j < |g.groups| ensures gs[j] == GroupOutcome(role, valid, g.groups[j]) {
      ChildGroupOutcomeAt(role, valid, g, |g.groups|, j);
    }
    AllRejected(es);
    AllRejected(gs);
  }

  lemma AllRejected<T(!new)>(outs: seq<Processed<T>>)
    ensures (!AnyFatal(outs) && KeptValues(outs) == []) <==> forall i :: 0 <= i < |outs| ==> outs[i] == Rejected
  {
  }

  // ---------------------------------------------------------------------------
  // The filter as a whole
  // ---------------------------------------------------------------------------

  /**
   * `filter`: null stays null; an entity or a group is processed and any
   * exception escaping it makes the result null; any other object is returned
   * as it is.
   */
  function FilterResult(role: QName, valid: Certificate -> bool, metadata: Option<XmlObject>): (r: Option<XmlObject>)
    ensures metadata.None? ==> r.None?
    ensures metadata.Some? && metadata.value.Other? ==> r == metadata
  {
    match metadata
    case None => None
    case Some(Entity(e)) =>
      (match EntityOutcome(role, valid, e)
       case Kept(e') => Some(Entity(e'))
       case _ => None)
    case Some(Group(g)) =>
      (match GroupOutcome(role, valid, g)
       case Kept(g') => Some(Group(g'))
       case _ => None)
    case Some(Other(_)) => metadata
  }

  /** What the filter returns for an entity or a group is trusted. */
  lemma FilterEstablishesTrust(role: QName, valid: Certificate -> bool, metadata: Option<XmlObject>)
    ensures var r := FilterResult(role, valid, metadata);
      && (r.Some? && r.value.Entity? ==> EntityTrusted(role, valid, r.value.entity))
      && (r.Some? && r.value.Group? ==> GroupTrusted(role, valid, r.value.group))
  {
    match metadata
    case None =>
    case Some(Entity(e)) => EntityOutcomeKept(role, valid, e);
    case Some(Group(g)) => GroupOutcomeTrusted(role, valid, g);
    case Some(Other(_)) =>
  }

  /** When every checked certificate validates and nothing is empty, the tree comes back untouched. */
  lemma FilterKeepsTrustedTree(role: QName, valid: Certificate -> bool, metadata: XmlObject)
    requires metadata.Entity? ==> EntityTrusted(role, valid, metadata.entity)
    requires metadata.Group? ==> GroupTrusted(role, valid, metadata.group)
    ensures FilterResult(role, valid, Some(metadata)) == Some(metadata)
  {
    match metadata
    case Entity(e) => EntityTrustedIsKept(role, valid, e);
    case Group(g) => GroupTrustedIsKept(role, valid, g);
    case Other(_) =>
  }

  /** Filtering twice with the same filter gives what filtering once gives. */
  lemma FilterIdempotent(role: QName, valid: Certificate -> bool, metadata: Option<XmlObject>)
    ensures FilterResult(role, valid, FilterResult(role, valid, metadata)) == FilterResult(role, valid, metadata)
  {
    var r := FilterResult(role, valid, metadata);
    FilterEstablishesTrust(role, valid, metadata);
    if r.Some? {
      FilterKeepsTrustedTree(role, valid, r.value);
    }
  }

  /**
   * Fail-closed: the filter yields null for an entity exactly when it hits a
   * conversion error or no role survives, and for a group exactly when a
   * conversion error is reachable below it or it is rejected; so a conversion
   * error anywhere discards the whole tree rather than returning it partially
   * filtered.
   */
  lemma FilterNullIff(role: QName, valid: Certificate -> bool, metadata: XmlObject)
    ensures FilterResult(role, valid, Some(metadata)) == None <==>
      || (metadata.Entity? && (HasConversionError(role, valid, metadata.entity.roles)
                                || SurvivingRoles(role, valid, metadata.entity.roles) == []))
      || (metadata.Group? && (ReachesConversionError(role, valid, metadata.group)
                               || GroupOutcome(role, valid, metadata.group) == Rejected))
  {
    if metadata.Group? {
      GroupFatalIff(role, valid, metadata.group);
    }
  }

  /** `getGroupName`: the group's Name, else its ID, else "(unnamed)". */
  function GetGroupName(g: EntitiesDescriptor): (r: string)
    ensures g.name.Some? ==> r == g.name.value
    ensures g.name.None? && g.id.Some? ==> r == g.id.value
    ensures g.name.None? && g.id.None? ==> r == "(unnamed)"
  {
    if g.name.Some? then g.name.value
    else if g.id.Some? then g.id.value
    else "(unnamed)"
  }

  // ---------------------------------------------------------------------------
  // The filter object
  // ---------------------------------------------------------------------------

  /**
   * A filter configured, once and for all, with the role element name it
   * judges, the certificate chain validator and the trust store.
   */
  class CertificateChainValidationFilter {
    const role: QName
    const certificateChainValidator: (Certificate, KeyStore) -> bool
    const keyStore: KeyStore

    constructor (role: QName, certificateChainValidator: (Certificate, KeyStore) -> bool, keyStore: KeyStore)
      ensures this.role == role && this.keyStore == keyStore
      ensures this.certificateChainValidator == certificateChainValidator
    {
      this.role := role;
      this.certificateChainValidator := certificateChainValidator;
      this.keyStore := keyStore;
    }

    /** Whether one certificate validates against the configured trust store. */
    function Validates(): Certificate -> bool
    {
      c => certificateChainValidator(c, keyStore)
    }

    method Filter(metadata: Option<XmlObject>) returns (r: Option<XmlObject>)
      ensures r == FilterResult(role, Validates(), metadata)
    {
      if metadata.None? {
        return None;
      }
      match metadata.value
      case Entity(e) =>
        var outcome := ProcessEntityDescriptor(e);
        r := if outcome.Kept? then Some(Entity(outcome.value)) else None;
      case Group(g) =>
        var outcome := ProcessEntityGroup(g);
        r := if outcome.Kept? then Some(Group(outcome.value)) else None;
      case Other(_) =>
        r := metadata;
    }

    method ProcessEntityDescriptor(e: EntityDescriptor) returns (r: Processed<EntityDescriptor>)
      ensures r == EntityOutcome(role, Validates(), e)
    {
      var kept: seq<RoleDescriptor> := [];
      for i := 0 to |e.roles|
        invariant forall k :: 0 <= k < i ==> !RoleValidation(role, Validates(), e.roles[k]).ConversionError?
        invariant kept == SurvivingRoles(role, Validates(), e.roles[..i])
      {
        var roleDescriptor := e.roles[i];
        var remove := false;
        if roleDescriptor.elementQName == role {
          var validation := PerformCertificateChainValidation(roleDescriptor);
          if validation.ConversionError? {
            assert RoleValidation(role, Validates(), e.roles[i]).ConversionError?;
            return Fatal;
          }
          remove := validation.Invalid?;
        }
        if !remove {
          kept := kept + [roleDescriptor];
        }
        assert e.roles[..i + 1][..i] == e.roles[..i];
      }
      assert e.roles[..|e.roles|] == e.roles;
      if kept == [] {
        return Rejected;
      }
      return Kept(e.(roles := kept));
    }

    method ProcessEntityGroup(g: EntitiesDescriptor) returns (r: Processed<EntitiesDescriptor>)
      ensures r == GroupOutcome(role, Validates(), g)
      decreases g, 1
    {
      var keptEntities := ProcessEntities(g.entities);
      if keptEntities.None? {
        return Fatal;
      }
      var keptGroups := ProcessChildGroups(g);
      if keptGroups.None? {
        return Fatal;
      }
      if keptEntities.value == [] && keptGroups.value == [] {
        return Rejected;
      }
      return Kept(g.(entities := keptEntities.value, groups := keptGroups.value));
    }

    /** The entities of a group that are kept, or None when a conversion error escapes. */
    method ProcessEntities(entities: seq<EntityDescriptor>) returns (r: Option<seq<EntityDescriptor>>)
      ensures r.None? <==> AnyFatal(EntityOutcomes(role, Validates(), entities, |entities|))
      ensures r.Some? ==> r.value == KeptValues(EntityOutcomes(role, Validates(), entities, |entities|))
    {
      ghost var valid := Validates();
      var kept: seq<EntityDescriptor> := [];
      for i := 0 to |entities|
        invariant !AnyFatal(EntityOutcomes(role, valid, entities, i))
        invariant kept == KeptValues(EntityOutcomes(role, valid, entities, i))
      {
        ghost var before := EntityOutcomes(role, valid, entities, i);
        var outcome := ProcessEntityDescriptor(entities[i]);
        AnyFatalAppend(before, outcome);
        KeptValuesAppend(before, outcome);
        if outcome.Fatal? {
          assert EntityOutcomes(role, valid, entities, |entities|)[i].Fatal?;
          return None;
        }
        if outcome.Kept? {
          kept := kept + [outcome.value];
        }
      }
      return Some(kept);
    }

    /** The nested groups of a group that are kept, or None when a conversion error escapes. */
    method ProcessChildGroups(g: EntitiesDescriptor) returns (r: Option<seq<EntitiesDescriptor>>)
      ensures r.None? <==> AnyFatal(ChildGroupOutcomes(role, Validates(), g, |g.groups|))
      ensures r.Some? ==> r.value == KeptValues(ChildGroupOutcomes(role, Validates(), g, |g.groups|))
      decreases g, 0
    {
      ghost var valid := Validates();
      var kept: seq<EntitiesDescriptor> := [];
      for j := 0 to |g.groups|
        invariant !AnyFatal(ChildGroupOutcomes(role, valid, g, j))
        invariant kept == KeptValues(ChildGroupOutcomes(role, valid, g, j))
      {
        ghost var before := ChildGroupOutcomes(role, valid, g, j);
        var outcome := ProcessEntityGroup(g.groups[j]);
        AnyFatalAppend(before, outcome);
        KeptValuesAppend(before, outcome);
        if outcome.Fatal? {
          ChildGroupOutcomeAt(role, valid, g, |g.groups|, j);
          assert ChildGroupOutcomes(role, valid, g, |g.groups|)[j].Fatal?;
          return None;
        }
        if outcome.Kept? {
          kept := kept + [outcome.value];
        }
      }
      return Some(kept);
    }

    method PerformCertificateChainValidation(roleDescriptor: RoleDescriptor) returns (r: Validation)
      ensures r == CheckKeyDescriptors(Validates(), roleDescriptor.keyDescriptors)
    {
      var kds := roleDescriptor.keyDescriptors;
      for i := 0 to |kds|
        invariant CheckKeyDescriptors(Validates(), kds) == CheckKeyDescriptors(Validates(), kds[i..])
      {
        var certificates := Certificates(kds[i]);
        if certificates.None? {
          return ConversionError;
        }
        var cs := certificates.value;
        for j := 0 to |cs|
          invariant CheckCertificates(Validates(), cs) == CheckCertificates(Validates(), cs[j..])
        {
          if !certificateChainValidator(cs[j], keyStore) {
            return Invalid(cs[j].subjectDn);
          }
          assert cs[j..][1..] == cs[j + 1..];
        }
        assert cs[|cs|..] == [];
        assert kds[i..][1..] == kds[i + 1..];
      }
      assert kds[|kds|..] == [];
      return Valid;
    }
  }
}
