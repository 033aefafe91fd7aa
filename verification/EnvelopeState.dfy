/** How a signer proves who they are (auth-methods.ts). */
module AuthMethods {
  import opened Basics

  datatype AuthMethod =
    | Email | EmailOtp | SmsOtp | WhatsappOtp | Document | Selfie
    | Biometrics | Certificate | IcpBrasil | Integration

  datatype OtpChannel = ByEmail | ByWhatsapp

  /** The registry's `available` column; WhatsApp codes depend on configuration. */
  predicate Available(m: AuthMethod, whatsapp: bool) {
    m.Email? || m.EmailOtp? || (m.WhatsappOtp? && whatsapp)
  }

  predicate Activatable(m: AuthMethod, whatsapp: bool) {
    m.Integration? || Available(m, whatsapp)
  }

  predicate RequiresChallenge(m: AuthMethod) {
    m.EmailOtp? || m.WhatsappOtp?
  }

  /** The channels of the source's list; their order matters only to `DefaultOtpChannel`. */
  function OtpChannels(m: AuthMethod, phone: bool, whatsapp: bool): set<OtpChannel> {
    var wa := whatsapp && phone;
    match m
    case WhatsappOtp => if wa then {ByWhatsapp} else {}
    case EmailOtp => if wa then {ByEmail, ByWhatsapp} else {ByEmail}
    case _ => {}
  }

  /** `viaPhone`: the session's link came by WhatsApp or through the API. */
  function DefaultOtpChannel(channels: set<OtpChannel>, viaPhone: bool): Option<OtpChannel> {
    if channels == {} then None
    else if viaPhone && ByWhatsapp in channels then Some(ByWhatsapp)
    else if ByEmail in channels then Some(ByEmail)
    else Some(ByWhatsapp)
  }

  function ChannelMethod(c: OtpChannel): AuthMethod {
    if c.ByWhatsapp? then WhatsappOtp else EmailOtp
  }

  predicate SessionSatisfies(signer: AuthMethod, session: Option<AuthMethod>) {
    match signer
    case EmailOtp => session == Some(EmailOtp) || session == Some(WhatsappOtp)
    case WhatsappOtp => session == Some(WhatsappOtp)
    case _ => true
  }

  /** Any code the server is willing to send authenticates a session well enough to sign,
      and a signer who needs a code always has a channel once the envelope is active. */
  lemma ChannelsSatisfy(m: AuthMethod, phone: bool, whatsapp: bool, viaPhone: bool)
    requires RequiresChallenge(m)
    ensures forall c | c in OtpChannels(m, phone, whatsapp) :: SessionSatisfies(m, Some(ChannelMethod(c)))
    ensures var d := DefaultOtpChannel(OtpChannels(m, phone, whatsapp), viaPhone);
            if Activatable(m, whatsapp) && (m.WhatsappOtp? ==> phone)
            then d.Some? && d.value in OtpChannels(m, phone, whatsapp)
            else d.None?
  {
  }

  /** The channel offered first: WhatsApp where the link came by phone or nothing else is offered, otherwise e-mail. */
  lemma DefaultChannelExactly(m: AuthMethod, phone: bool, whatsapp: bool, viaPhone: bool)
    ensures DefaultOtpChannel(OtpChannels(m, phone, whatsapp), viaPhone)
            == if m == EmailOtp then Some(if viaPhone && phone && whatsapp then ByWhatsapp else ByEmail)
               else if m == WhatsappOtp && phone && whatsapp then Some(ByWhatsapp)
               else None
  {
  }
}

/** The central state machine and signing order (envelope-state.ts). */
module EnvelopeState {
  import opened Basics
  import opened AuthMethods

  datatype EnvelopeStatus = Draft | Active | PartiallySigned | Completed | Expired | Cancelled | Declined

  datatype SignerStatus = Pending | Invited | Viewed | Authenticated | Signed | Declined | Expired

  type SignerId = nat

  /** A signer row; only `status` (and, in a draft, `signingGroup`) ever changes. */
  datatype Signer = Signer(
    signingGroup: int,
    required: bool,
    authMethod: AuthMethod,
    phone: bool,
    representing: bool,
    status: SignerStatus)

  type Signers = map<SignerId, Signer>

  /** The edges of ENVELOPE_TRANSITIONS. */
  predicate CanTransition(from: EnvelopeStatus, to: EnvelopeStatus) {
    match from
    case Draft => to.Active? || to.Cancelled?
    case Active => to.PartiallySigned? || to.Completed? || to.Expired? || to.Cancelled? || to.Declined?
    case PartiallySigned => to.Completed? || to.Expired? || to.Cancelled? || to.Declined?
    case _ => false
  }

  predicate Signable(s: EnvelopeStatus) {
    s.Active? || s.PartiallySigned?
  }

  predicate Terminal(s: SignerStatus) {
    s.Signed? || s.Declined? || s.Expired?
  }

  function Rank(s: SignerStatus): nat {
    match s
    case Pending => 0
    case Invited => 1
    case Viewed => 2
    case Authenticated => 3
    case _ => 10
  }

  predicate SignerCanAdvance(from: SignerStatus, to: SignerStatus) {
    if Terminal(from) then false
    else if to.Declined? || to.Expired? then !from.Pending? || to.Expired?
    else if to.Signed? then from.Authenticated?
    else Rank(to) > Rank(from)
  }

  /** A required signature that is still missing: what holds its group, and the envelope, back. */
  predicate Open(s: Signer) {
    s.required && !s.status.Signed?
  }

  predicate GroupDone(signers: Signers, group: int) {
    forall id | id in signers && signers[id].signingGroup == group && signers[id].required :: signers[id].status.Signed?
  }

  /** The loop over the sorted distinct groups: the first group that is not done. */
  function FirstOpenGroup(signers: Signers, groups: set<int>): Option<int>
    decreases groups
  {
    if groups == {} then None
    else
      var g := Least(groups);
      if GroupDone(signers, g) then FirstOpenGroup(signers, groups - {g}) else Some(g)
  }

  function NextSigningGroup(signers: Signers): Option<int> {
    FirstOpenGroup(signers, set id | id in signers :: signers[id].signingGroup)
  }

  function SignersToInvite(signers: Signers, current: Option<int>): set<SignerId> {
    if current.None? then {}
    else set id | id in signers
                  && signers[id].signingGroup <= current.value
                  && signers[id].status.Pending?
                  && !signers[id].authMethod.Integration?
  }

  predicate IsSignersTurn(signers: Signers, group: int) {
    var current := NextSigningGroup(signers);
    current.Some? && group <= current.value
  }

  predicate AllRequiredSigned(signers: Signers) {
    signers != map[] && forall id | id in signers && signers[id].required :: signers[id].status.Signed?
  }

  // ---------------------------------------------------------------- meaning of the signing order

  /** No missing required signature precedes `group`. */
  ghost predicate Reached(signers: Signers, group: int) {
    forall id | id in signers && Open(signers[id]) :: group <= signers[id].signingGroup
  }

  ghost predicate SomeOpen(signers: Signers) {
    exists id :: id in signers && Open(signers[id])
  }

  lemma {:induction false} FirstOpenGroupIsLeast(signers: Signers, groups: set<int>)
    ensures match FirstOpenGroup(signers, groups)
            case None => forall g | g in groups :: GroupDone(signers, g)
            case Some(g) => g in groups && !GroupDone(signers, g)
                            && forall h | h in groups && h < g :: GroupDone(signers, h)
    decreases groups
  {
    if groups != {} {
      var g := Least(groups);
      if GroupDone(signers, g) {
        FirstOpenGroupIsLeast(signers, groups - {g});
      }
    }
  }

  /** The next group is the least group that still misses a required signature; there is none
      exactly when no required signature is missing. */
  lemma NextGroupIsLeastOpen(signers: Signers)
    ensures match NextSigningGroup(signers)
            case None => !SomeOpen(signers)
            case Some(g) => Reached(signers, g)
                            && exists id :: id in signers && Open(signers[id]) && signers[id].signingGroup == g
  {
    var groups := set id | id in signers :: signers[id].signingGroup;
    FirstOpenGroupIsLeast(signers, groups);
    match NextSigningGroup(signers)
    case None =>
      forall id | id in signers ensures !Open(signers[id]) {
        assert signers[id].signingGroup in groups;
      }
    case Some(g) =>
      forall id | id in signers && Open(signers[id]) ensures g <= signers[id].signingGroup {
        assert signers[id].signingGroup in groups;
      }
  }

  /** It is a group's turn exactly when a required signature is missing and none of an earlier group is. */
  lemma TurnMeansReached(signers: Signers, group: int)
    ensures IsSignersTurn(signers, group) <==> SomeOpen(signers) && Reached(signers, group)
  {
    NextGroupIsLeastOpen(signers);
  }

  /** Whoever is to be invited is in turn, unsolicited so far, and not the integration's to sign. */
  lemma InvitedMeansReached(signers: Signers, id: SignerId)
    ensures id in SignersToInvite(signers, NextSigningGroup(signers))
            <==> id in signers && SomeOpen(signers) && Reached(signers, signers[id].signingGroup)
                 && signers[id].status.Pending? && !signers[id].authMethod.Integration?
  {
    NextGroupIsLeastOpen(signers);
  }
}
