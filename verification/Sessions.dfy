/**
 The configured directory (crates/piteka-domain/src/identity.rs) and the session authority over it
 (crates/piteka-application/src/session.rs).
 */
module Sessions {
  import opened Records
  import opened Bytes
  import opened SessionBytes

  // ----- The directory

  datatype Identity = Identity(user: seq<byte>, organization: seq<byte>, role: Role)

  datatype DirectoryError = NoMembers | CrossOrganizationMember(at: nat) | DuplicateMember(at: nat)

  datatype Configured = Directory(organization: seq<byte>, members: seq<Identity>) | Denied(error: DirectoryError)

  /** Every member belongs to the organization, and no two share a user id. */
  ghost predicate WellFormed(organization: seq<byte>, members: seq<Identity>) {
    && (forall i :: 0 <= i < |members| ==> members[i].organization == organization)
    && (forall i, j :: 0 <= i < j < |members| ==> members[i].user != members[j].user)
  }

  /** `ConfiguredOrganization::new`: the first offending member decides the error. */
  method Configure(organization: seq<byte>, members: seq<Identity>) returns (c: Configured)
    ensures c.Directory? <==> members != [] && WellFormed(organization, members)
    ensures c.Directory? ==> c == Directory(organization, members)
    ensures c == Denied(NoMembers) <==> members == []
    ensures c.Denied? && c.error.CrossOrganizationMember? ==>
      c.error.at < |members| && WellFormed(organization, members[..c.error.at])
          && members[c.error.at].organization != organization
    ensures c.Denied? && c.error.DuplicateMember? ==>
      c.error.at < |members| && WellFormed(organization, members[..c.error.at])
          && members[c.error.at].organization == organization
      && exists j :: 0 <= j < c.error.at && members[j].user == members[c.error.at].user
  {
    if members == [] {
      return Denied(NoMembers);
    }
    for index := 0 to |members|
      invariant WellFormed(organization, members[..index])
    {
      if members[index].organization != organization {
        return Denied(CrossOrganizationMember(index));
      }
      for j := 0 to index
        invariant forall k :: 0 <= k < j ==> members[k].user != members[index].user
      {
        if members[j].user == members[index].user {
          return Denied(DuplicateMember(index));
        }
      }
    }
    assert members[..|members|] == members;
    return Directory(organization, members);
  }

  /** `member`: the first with that user id. */
  function Member(members: seq<Identity>, user: seq<byte>): Option<Identity> {
    if members == [] then None
    else if members[0].user == user then Some(members[0])
    else Member(members[1..], user)
  }

  /** In an accepted directory the lookup finds the one member with that id, or there is none. */
  lemma {:induction false} MemberIsUnique(organization: seq<byte>, members: seq<Identity>, user: seq<byte>, m: Identity)
    requires WellFormed(organization, members)
    ensures Member(members, user) == Some(m) <==> m in members && m.user == user
    ensures Member(members, user) == Some(m) ==> m.organization == organization
  {
    if members != [] {
      MemberIsUnique(organization, members[1..], user, m);
      assert m in members <==> m == members[0] || m in members[1..];
    }
  }

  // ----- Claims

  datatype ClaimsResult = Made(claims: Claims) | EmptySubject | EmptyOrganization | NonPositiveLifetime

  /** `SessionClaims::new`. */
  function NewClaims(id: seq<byte>, subject: seq<byte>, organization: seq<byte>, role: Role, issued: nat,
                     expires: nat): ClaimsResult {
    if subject == [] then EmptySubject
    else if organization == [] then EmptyOrganization
    else if expires <= issued then NonPositiveLifetime
    else Made(Claims(id, subject, organization, role, issued, expires))
  }

  // ----- The authority

  /** The signer port; its secrets stay abstract. */
  datatype Signature = Signature(algorithm: nat, bytes: seq<byte>)

  datatype Signer = Signer(algorithm: nat, sign: seq<byte> -> Signature, verify: (seq<byte>, Signature) -> bool)

  datatype SignedSession = SignedSession(claims: Claims, signature: Signature)

  datatype Issued = Session(session: SignedSession) | UnknownSubject | Panicked

  function SaturatingAdd(a: nat, b: nat): nat {
    if a + b < TWO64 then a + b else TWO64 - 1
  }

  /** `issue`: role and organization come from the directory, the lifetime is at least one second. */
  function Issue(signer: Signer, members: seq<Identity>, now: nat, subject: seq<byte>, id: seq<byte>,
                 lifetime: nat): Issued {
    match Member(members, subject)
    case None => UnknownSubject
    case Some(m) =>
      match NewClaims(id, m.user, m.organization, m.role, now, SaturatingAdd(now, if lifetime < 1 then 1 else lifetime))
      case Made(claims) => Session(SignedSession(claims, signer.sign(SigningBytes(claims))))
      case _ => Panicked
  }

  datatype Authenticated =
    | Authentic(identity: Identity, claims: Claims)
    | AlgorithmMismatch | InvalidSignature | Expired | NotYetValid | NoSuchSubject | CrossOrganization | RoleMismatch

  /** `authenticate`: the first check that fails decides. */
  function Authenticate(signer: Signer, members: seq<Identity>, now: nat, s: SignedSession): Authenticated {
    if s.signature.algorithm != signer.algorithm then AlgorithmMismatch
    else if !signer.verify(SigningBytes(s.claims), s.signature) then InvalidSignature
    else if s.claims.expires <= now then Authenticated.Expired
    else if now < s.claims.issued then NotYetValid
    else
      match Member(members, s.claims.subject)
      case None => NoSuchSubject
      case Some(m) =>
        if m.organization != s.claims.organization then CrossOrganization
        else if m.role != s.claims.role then RoleMismatch
        else Authentic(m, s.claims)
  }

  /** Claims are made unless subject, organization or window is empty, and the first of these decides the error. */
  lemma ClaimsAreChecked(id: seq<byte>, subject: seq<byte>, organization: seq<byte>, role: Role, issued: nat,
                         expires: nat)
    ensures var r := NewClaims(id, subject, organization, role, issued, expires);
      && (r.Made? <==> 0 < |subject| && 0 < |organization| && issued < expires)
      && (r.Made? ==> r.claims.id == id && r.claims.subject == subject && r.claims.organization == organization
                      && r.claims.role == role && r.claims.issued == issued && r.claims.expires == expires)
      && (r.EmptySubject? <==> |subject| == 0)
      && (r.EmptyOrganization? <==> 0 < |subject| && |organization| == 0)
      && (r.NonPositiveLifetime? <==> 0 < |subject| && 0 < |organization| && expires <= issued)
  {
  }

  /** The signer vouches for the session with its one algorithm. */
  predicate Vouched(signer: Signer, s: SignedSession) {
    signer.algorithm == s.signature.algorithm && signer.verify(SigningBytes(s.claims), s.signature)
  }

  /**
   What every answer means. An untrusted signature hides everything else; a trusted session is outside its window, or
   its one member is not there, is of another organization or has another role, or it is authentic.
   */
  lemma AnswersMean(signer: Signer, organization: seq<byte>, members: seq<Identity>, now: nat, s: SignedSession)
    requires WellFormed(organization, members)
    ensures var r, c := Authenticate(signer, members, now, s), s.claims;
      var live := Vouched(signer, s) && c.issued <= now < c.expires;
      && (r.AlgorithmMismatch? <==> s.signature.algorithm != signer.algorithm)
      && (r.AlgorithmMismatch? || r.InvalidSignature? <==> !Vouched(signer, s))
      && (r.Expired? <==> Vouched(signer, s) && c.expires <= now)
      && (r.NotYetValid? <==> Vouched(signer, s) && now < c.issued && now < c.expires)
      && (r.NoSuchSubject? <==> live && forall m :: m in members ==> m.user != c.subject)
      && (r.CrossOrganization? <==>
            live && c.organization != organization && exists m :: m in members && m.user == c.subject)
      && (r.RoleMismatch? <==>
            live && c.organization == organization
            && exists m :: m in members && m.user == c.subject && m.role != c.role)
      && (r.Authentic? <==> live && Identity(c.subject, organization, c.role) in members
                            && c.organization == organization)
  {
    hide SigningBytes;
    var found := Member(members, s.claims.subject);
    forall m | m in members && m.user == s.claims.subject ensures found == Some(m) && m.organization == organization {
      MemberIsUnique(organization, members, s.claims.subject, m);
    }
    if found.Some? {
      MemberIsUnique(organization, members, s.claims.subject, found.value);
    }
  }

  /** One call of `issue` that returned these claims. */
  datatype Issuance = Issuance(now: nat, subject: seq<byte>, id: seq<byte>, lifetime: nat, claims: Claims)

  predicate IsIssuance(signer: Signer, members: seq<Identity>, i: Issuance) {
    && |i.id| == 16 && i.now < TWO64
    && var r := Issue(signer, members, i.now, i.subject, i.id, i.lifetime);
       r.Session? && r.session.claims == i.claims
  }

  /** The signer verifies only messages that it signed, and it signs for this authority alone. */
  ghost predicate VerifiesOnlySigned(signer: Signer, history: seq<Issuance>) {
    forall message, signature :: signer.verify(message, signature) ==>
      exists i :: 0 <= i < |history| && message == SigningBytes(history[i].claims)
  }

  /** Ids fit their length prefixes, and no id is empty. */
  ghost predicate IdsFit(members: seq<Identity>) {
    forall m :: m in members ==> 0 < |m.user| < TWO32 && 0 < |m.organization| < TWO32
  }

  /** What was asked for, but at least one second. */
  function Lifetime(i: Issuance): (seconds: nat)
    ensures 1 <= seconds && i.lifetime <= seconds && (seconds == 1 || seconds == i.lifetime)
  {
    if i.lifetime < 1 then 1 else i.lifetime
  }

  /**
   What the directory and the clock put into issued claims: they end a lifetime after the issue, or at the last
   second there is.
   */
  lemma IssuedClaims(signer: Signer, organization: seq<byte>, members: seq<Identity>, i: Issuance)
    requires WellFormed(organization, members) && IdsFit(members) && IsIssuance(signer, members, i)
    ensures SessionBytes.WellTyped(i.claims) && Short(i.claims)
    ensures Identity(i.subject, organization, i.claims.role) in members
    ensures i.claims.id == i.id && i.claims.subject == i.subject && i.claims.organization == organization
    ensures i.claims.issued == i.now
    ensures i.now + Lifetime(i) < TWO64 ==> i.claims.expires == i.now + Lifetime(i)
    ensures TWO64 <= i.now + Lifetime(i) ==> i.claims.expires == TWO64 - 1
  {
    hide SigningBytes;
    var m := Member(members, i.subject).value;
    MemberIsUnique(organization, members, i.subject, m);
  }

  /**
   Whatever claims a caller presents: a session that authenticates carries exactly the claims of an
   earlier issue, is inside its window, and stands for the directory's one member with that user id,
   organization and role.
   */
  lemma AcceptedWasIssued(signer: Signer, organization: seq<byte>, members: seq<Identity>, history: seq<Issuance>,
                          now: nat, s: SignedSession) returns (k: nat)
    requires WellFormed(organization, members) && IdsFit(members)
    requires forall i :: 0 <= i < |history| ==> IsIssuance(signer, members, history[i])
    requires VerifiesOnlySigned(signer, history)
    requires SessionBytes.WellTyped(s.claims) && Authenticate(signer, members, now, s).Authentic?
    ensures k < |history| && s.claims == history[k].claims && s.claims.issued <= now < s.claims.expires
    ensures var who := Authenticate(signer, members, now, s).identity;
      && who == Identity(history[k].subject, organization, s.claims.role) && who in members
      && forall m :: m in members && m.user == who.user ==> m == who
  {
    hide SigningBytes;
    assert signer.verify(SigningBytes(s.claims), s.signature);
    k :| 0 <= k < |history| && SigningBytes(s.claims) == SigningBytes(history[k].claims);
    IssuedClaims(signer, organization, members, history[k]);
    SigningBytesInjective(history[k].claims, s.claims);
    var who := Authenticate(signer, members, now, s).identity;
    MemberIsUnique(organization, members, s.claims.subject, who);
    forall m | m in members && m.user == who.user ensures m == who {
      MemberIsUnique(organization, members, who.user, m);
    }
  }

  /** An issued session authenticates, as its subject, from its issue for its lifetime, up to the last second. */
  lemma IssuedSessionLives(signer: Signer, organization: seq<byte>, members: seq<Identity>, i: Issuance, t: nat)
    requires WellFormed(organization, members) && IdsFit(members) && IsIssuance(signer, members, i)
    requires forall message ::
      signer.verify(message, signer.sign(message)) && signer.sign(message).algorithm == signer.algorithm
    ensures var s, end := Issue(signer, members, i.now, i.subject, i.id, i.lifetime).session, i.now + Lifetime(i);
      var r := Authenticate(signer, members, t, s);
      && (r.Authentic? <==> i.now <= t && if end < TWO64 then t < end else t < TWO64 - 1)
      && (r.Authentic? ==> r.identity == Identity(i.subject, organization, i.claims.role) && r.claims == i.claims)
  {
    hide SigningBytes;
    IssuedClaims(signer, organization, members, i);
    var m := Identity(i.subject, organization, i.claims.role);
    MemberIsUnique(organization, members, i.subject, m);
  }

  /**
   A known subject is issued a session at every time but the last: at `u64::MAX` the saturated window is empty and
   `issue` panics.
   */
  lemma IssuePanicsOnlyAtTheEnd(signer: Signer, organization: seq<byte>, members: seq<Identity>, now: nat,
                                subject: seq<byte>, id: seq<byte>, lifetime: nat)
    requires WellFormed(organization, members) && IdsFit(members) && now < TWO64 && lifetime < TWO64
    ensures var r := Issue(signer, members, now, subject, id, lifetime);
      && (r.UnknownSubject? <==> forall m :: m in members ==> m.user != subject)
      && (r.Panicked? <==> !r.UnknownSubject? && now == TWO64 - 1)
  {
    hide SigningBytes;
    var found := Member(members, subject);
    if found.Some? {
      MemberIsUnique(organization, members, subject, found.value);
    } else {
      forall m | m in members ensures m.user != subject {
        MemberIsUnique(organization, members, subject, m);
      }
    }
  }
}
