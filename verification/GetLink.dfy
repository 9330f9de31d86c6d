/** Where `qurl get` gets its link: the share request, the link request, their two
    time limits, an interrupt, and a memory of one variable across refreshes.

    The service, the SDK, the settings and the contexts are an oracle: `Env` holds
    what each question would be answered, and `asked` records the questions. */
module GetLink {
  import opened Wrappers

  // ------------------------------------------------------------------ answers

  /** The sentinels an SDK error can match. One error can match several. */
  datatype Mark =
    | InvalidResource | UnsupportedVersion | InvalidDeviceKey
    | CtxCanceled | CtxDeadline | SettingsFile | Misconfigured | NoEndpoint | Rejected | ProtocolFault | NotFound
    | Unavailable | TooMany | Offline | Closed | InvalidRequest | Overloaded | Denied | RelayFault | NoSettings

  /** `keySource` is there when the SDK asked for the device key and got none it can
      use. It holds the answer to the first request, unless the SDK kept none. */
  datatype SdkError = SdkError(marks: set<Mark>, keySource: Option<Option<set<Mark>>>)

  /** The SDK can return an address, an error, both or neither. */
  datatype SdkAnswer = SdkAnswer(url: Option<string>, error: Option<SdkError>)

  datatype Link = Link(url: string, crid: string)

  datatype ShareAnswer = Shared(link: Option<Link>) | Refused(notFound: bool, code: nat)

  /** Wrong settings: the entry for the request, or the settings as a whole. */
  datatype Offer = Offered | NotOffered | WrongSetup(entry: bool)

  datatype CtxEnd = Running | Interrupted | TimeOver

  /** What ends a run without a link. The last two are internal. */
  datatype LinkError =
    | Canceled | AccessNotConfigured | SetupFault | LinkRefused | CridNotFound | CridNotFoundNoDevice | LinkUnavailable
    | RateLimited | PublisherOffline | ResourceClosed | RequestRejected | AccessBusy | NoAnswer
    | UnsupportedCridVersion | ValidCridRequired
    | ShareFailed(code: nat) | ShareNotFound(code: nat) | ShareUnverified
    | NotRequestable(version: bool) | DeviceKeyRefused

  predicate Internal(e: LinkError) {
    e.NotRequestable? || e.DeviceKeyRefused?
  }

  datatype Origin = FromShare | FromRequest | FromRequestOnly

  datatype Reply = Gave(link: Link, origin: Origin) | Fails(error: LinkError)

  datatype Limit = Short | Long

  datatype Request = AskShare | AskAsDevice | AskAlone(limit: Limit)

  /** What one call of `next` meets. `deviceEnd` and `shortEnd` are the end of the
      short-limit context when the request as a device returned and when the limit
      is judged; `ownThen` and `ownEnd` are the command's own context then and just
      after. */
  datatype Env = Env(
    identity: bool,
    offer: Offer,
    share: ShareAnswer,
    asDevice: SdkAnswer,
    deviceEnd: CtxEnd,
    aloneShort: SdkAnswer,
    alone: SdkAnswer,
    shortEnd: CtxEnd,
    ownThen: CtxEnd,
    ownEnd: CtxEnd)

  datatype Asked = Asked(reply: Reply, asked: seq<Request>)

  /** The order of the cases decides for an error that matches several. */
  function Classify(marks: set<Mark>, device: bool): LinkError {
    if CtxCanceled in marks then Canceled
    else if SettingsFile in marks then AccessNotConfigured
    else if Misconfigured in marks then SetupFault
    else if NoEndpoint in marks then AccessNotConfigured
    else if Rejected in marks || ProtocolFault in marks then LinkRefused
    else if NotFound in marks then (if device then CridNotFound else CridNotFoundNoDevice)
    else if Unavailable in marks then LinkUnavailable
    else if TooMany in marks then RateLimited
    else if Offline in marks then PublisherOffline
    else if Closed in marks then ResourceClosed
    else if InvalidRequest in marks then RequestRejected
    else if Overloaded in marks then AccessBusy
    else if Denied in marks then LinkUnavailable
    else if CtxDeadline in marks || RelayFault in marks then NoAnswer
    else if NoSettings in marks then AccessNotConfigured
    else LinkRefused
  }

  // -------------------------------------------------------------- link request

  /** The SDK's answer in the shape a share answer has. No error and no link is not
      an answer. */
  function FromAnswer(crid: string, device: bool, url: Option<string>, marks: Option<set<Mark>>)
    : Result<Link, LinkError>
  {
    if marks.Some? && InvalidResource in marks.value then Err(NotRequestable(UnsupportedVersion in marks.value))
    else if marks.Some? then Err(Classify(marks.value, device))
    else if url == None || url == Some("") then Err(LinkRefused)
    else Ok(Link(url.value, crid))
  }

  function Marks(e: Option<SdkError>): Option<set<Mark>> {
    if e.Some? then Some(e.value.marks) else None
  }

  function Alone(crid: string, device: bool, a: SdkAnswer): Result<Link, LinkError> {
    FromAnswer(crid, device, a.url, Marks(a.error))
  }

  predicate KeyNotGiven(e: Option<SdkError>) {
    e.Some? && e.value.keySource.Some?
  }

  /** When the context ended while the key was read, that end is the answer. */
  function DeviceError(e: Option<SdkError>, end: CtxEnd): Option<SdkError> {
    if end != Running && KeyNotGiven(e) then
      Some(SdkError({if end == Interrupted then CtxCanceled else CtxDeadline}, None))
    else e
  }

  function AsDevice(crid: string, a: SdkAnswer, end: CtxEnd): Result<Link, LinkError> {
    var e := DeviceError(a.error, end);
    if KeyNotGiven(e) then FromAnswer(crid, true, None, e.value.keySource.value)
    else if e.Some? && InvalidDeviceKey in e.value.marks then Err(DeviceKeyRefused)
    else FromAnswer(crid, true, a.url, Marks(e))
  }

  predicate RanOut(env: Env, r: Result<Link, LinkError>) {
    r == Err(NoAnswer) && env.shortEnd == TimeOver && env.ownThen == Running
  }

  /** The link request of a device that can make its share request afterwards. */
  function BeforeShare(env: Env, crid: string): (Result<Link, LinkError>, seq<Request>) {
    var r := AsDevice(crid, env.asDevice, env.deviceEnd);
    if r != Err(DeviceKeyRefused) then (r, [AskAsDevice])
    else (Alone(crid, true, env.aloneShort), [AskAsDevice, AskAlone(Short)])
  }

  // ------------------------------------------------------------- share request

  /** The share answer, checked against the CRID that was asked for. */
  function ShareLink(crid: string, a: ShareAnswer): Result<Link, LinkError> {
    match a
    case Refused(notFound, code) => Err(if notFound then ShareNotFound(code) else ShareFailed(code))
    case Shared(None) => Err(ShareUnverified)
    case Shared(Some(link)) => if link.crid == "" || link.crid != crid then Err(ShareUnverified) else Ok(link)
  }

  // ------------------------------------------------------------- the decision

  function WithOrigin(r: Result<Link, LinkError>, origin: Origin): Reply {
    match r
    case Ok(link) => Gave(link, origin)
    case Err(e) => Fails(e)
  }

  function Refusal(e: LinkError): LinkError {
    if e.NotRequestable? then (if e.version then UnsupportedCridVersion else ValidCridRequired) else e
  }

  /** A refusal by the SDK is final on a machine with nothing else to ask. */
  function Final(r: Result<Link, LinkError>): Reply {
    if r.Err? then Fails(Refusal(r.error)) else WithOrigin(r, FromRequestOnly)
  }

  /** After the share request's "not found". */
  function AloneAfterShare(env: Env, crid: string, shareError: LinkError): Reply {
    var r := Alone(crid, true, env.alone);
    if r.Err? && r.error.NotRequestable? then Fails(shareError) else WithOrigin(r, FromRequestOnly)
  }

  function SetupError(entry: bool): LinkError {
    if entry then SetupFault else AccessNotConfigured
  }

  function ShareFirst(env: Env, crid: string): Asked {
    var share := ShareLink(crid, env.share);
    if share.Ok? || !share.error.ShareNotFound? then Asked(WithOrigin(share, FromShare), [AskShare])
    else
      match env.offer
      case WrongSetup(entry) => Asked(Fails(SetupError(entry)), [AskShare])
      case NotOffered => Asked(Fails(share.error), [AskShare])
      case Offered => Asked(AloneAfterShare(env, crid, share.error), [AskShare, AskAlone(Long)])
  }

  function RequestFirst(env: Env, crid: string): Asked {
    var (r, asked) := BeforeShare(env, crid);
    if r.Ok? then Asked(Gave(r.value, FromRequest), asked)
    else if r.error == Canceled || env.ownEnd == Interrupted then Asked(Fails(Canceled), asked)
    else
      var share := ShareLink(crid, env.share);
      if share.Ok? || !share.error.ShareNotFound? then Asked(WithOrigin(share, FromShare), asked + [AskShare])
      else if r.error.NotRequestable? then Asked(Fails(share.error), asked + [AskShare])
      else if !RanOut(env, r) then Asked(Fails(r.error), asked + [AskShare])
      else Asked(AloneAfterShare(env, crid, share.error), asked + [AskShare, AskAlone(Long)])
  }

  function NoIdentity(env: Env, crid: string): Asked {
    match env.offer
    case WrongSetup(entry) => Asked(Fails(SetupError(entry)), [])
    case NotOffered => Asked(WithOrigin(ShareLink(crid, env.share), FromShare), [AskShare])
    case Offered => Asked(Final(Alone(crid, false, env.alone)), [AskAlone(Long)])
  }

  function LinkForGet(env: Env, crid: string, option: bool): Asked {
    if !env.identity then NoIdentity(env, crid)
    else if option || env.offer != Offered then ShareFirst(env, crid)
    else RequestFirst(env, crid)
  }

  function Next(inUse: Origin, env: Env, crid: string, option: bool): Asked {
    if inUse != FromRequestOnly then LinkForGet(env, crid, option)
    else Asked(Final(Alone(crid, env.identity, env.alone)), [AskAlone(Long)])
  }

  // -------------------------------------------------------------- every call

  /** Main result: no internal error comes out of `next`, whatever the SDK, the
      service and the settings answer. */
  lemma NothingInternalLeaves(inUse: Origin, env: Env, crid: string, option: bool)
    ensures var reply := Next(inUse, env, crid, option).reply; reply.Fails? ==> !Internal(reply.error)
  {
    hide Classify;
    ClassifyIsPublic();
  }

  lemma ClassifyIsPublic()
    ensures forall marks: set<Mark>, device: bool :: !Internal(Classify(marks, device))
  {
  }

  /** One row of the table of errors: its place in the order, and what the user is told
      on a device and on a machine without an identity. */
  datatype Told = Told(place: nat, onDevice: LinkError, without: LinkError)

  function Alike(place: nat, error: LinkError): Told {
    Told(place, error, error)
  }

  /** The documented meaning of every error that an answer can match. */
  function RowOf(mark: Mark): Told {
    match mark
    case CtxCanceled => Alike(0, Canceled)
    case SettingsFile => Alike(1, AccessNotConfigured)
    case Misconfigured => Alike(2, SetupFault)
    case NoEndpoint => Alike(3, AccessNotConfigured)
    case Rejected => Alike(4, LinkRefused)
    case ProtocolFault => Alike(4, LinkRefused)
    case NotFound => Told(5, CridNotFound, CridNotFoundNoDevice)
    case Unavailable => Alike(6, LinkUnavailable)
    case TooMany => Alike(7, RateLimited)
    case Offline => Alike(8, PublisherOffline)
    case Closed => Alike(9, ResourceClosed)
    case InvalidRequest => Alike(10, RequestRejected)
    case Overloaded => Alike(11, AccessBusy)
    case Denied => Alike(12, LinkUnavailable)
    case CtxDeadline => Alike(13, NoAnswer)
    case RelayFault => Alike(13, NoAnswer)
    case NoSettings => Alike(14, AccessNotConfigured)
    case InvalidResource => Alike(15, LinkRefused)
    case UnsupportedVersion => Alike(15, LinkRefused)
    case InvalidDeviceKey => Alike(15, LinkRefused)
  }

  function Meaning(mark: Mark, device: bool): LinkError {
    if device then RowOf(mark).onDevice else RowOf(mark).without
  }

  /** No match comes before this one. */
  ghost predicate First(marks: set<Mark>, mark: Mark) {
    mark in marks && forall m :: m in marks ==> RowOf(mark).place <= RowOf(m).place
  }

  /** The first row that an answer matches decides, whatever it matches besides; an
      answer that matches nothing is not trusted. */
  ghost predicate Means(marks: set<Mark>, device: bool, error: LinkError) {
    || (exists mark :: First(marks, mark) && error == Meaning(mark, device))
    || (marks == {} && error == LinkRefused)
  }

  lemma PlacesEarly(marks: set<Mark>, place: nat)
    requires forall m :: m in marks ==> place <= RowOf(m).place
    ensures (CtxCanceled in marks ==> place <= 0) && (SettingsFile in marks ==> place <= 1)
    ensures (Misconfigured in marks ==> place <= 2) && (NoEndpoint in marks ==> place <= 3)
    ensures (Rejected in marks || ProtocolFault in marks ==> place <= 4) && (NotFound in marks ==> place <= 5)
    ensures (Unavailable in marks ==> place <= 6) && (TooMany in marks ==> place <= 7)
  {
  }

  lemma PlacesLate(marks: set<Mark>, place: nat)
    requires forall m :: m in marks ==> place <= RowOf(m).place
    ensures (Offline in marks ==> place <= 8) && (Closed in marks ==> place <= 9)
    ensures (InvalidRequest in marks ==> place <= 10) && (Overloaded in marks ==> place <= 11)
    ensures (Denied in marks ==> place <= 12) && (CtxDeadline in marks || RelayFault in marks ==> place <= 13)
    ensures NoSettings in marks ==> place <= 14
  {
  }

  lemma FirstDecides(marks: set<Mark>, device: bool, mark: Mark)
    requires First(marks, mark)
    ensures Classify(marks, device) == Meaning(mark, device)
  {
    PlacesEarly(marks, RowOf(mark).place);
    PlacesLate(marks, RowOf(mark).place);
    hide First;
  }

  lemma {:induction false} SomeFirst(marks: set<Mark>) returns (mark: Mark)
    requires marks != {}
    ensures First(marks, mark)
    decreases |marks|
  {
    hide RowOf;
    mark :| mark in marks;
    var rest := marks - {mark};
    if rest != {} {
      var other := SomeFirst(rest);
      if RowOf(other).place < RowOf(mark).place {
        mark := other;
      }
    }
  }

  /** Every answer has exactly one meaning, and that is what it is told as. */
  lemma ClassifyMeans(marks: set<Mark>, device: bool, error: LinkError)
    ensures Means(marks, device, error) <==> error == Classify(marks, device)
  {
    if marks != {} {
      var mark := SomeFirst(marks);
      hide Classify, First, Meaning;
      FirstDecides(marks, device, mark);
      forall m | First(marks, m)
        ensures Classify(marks, device) == Meaning(m, device)
      {
        FirstDecides(marks, device, m);
      }
    }
  }

  /** What is told about the link request with the CRID alone: the link, when there is
      an address and no error; `refused` when the SDK would not send it; and otherwise
      what the answer means. */
  ghost predicate ToldAlone(env: Env, crid: string, reply: Reply, refused: LinkError) {
    match env.alone.error
    case None =>
      if env.alone.url.Some? && env.alone.url.value != "" then
        reply == Gave(Link(env.alone.url.value, crid), FromRequestOnly)
      else reply == Fails(LinkRefused)
    case Some(e) =>
      if InvalidResource in e.marks then reply == Fails(refused)
      else reply.Fails? && Means(e.marks, env.identity, reply.error)
  }

  lemma AloneMeans(env: Env, crid: string)
    ensures env.alone.error.Some? ==>
              var marks := env.alone.error.value.marks; Means(marks, env.identity, Classify(marks, env.identity))
  {
    hide Classify, Means;
    if env.alone.error.Some? {
      var marks := env.alone.error.value.marks;
      ClassifyMeans(marks, env.identity, Classify(marks, env.identity));
    }
  }

  /** Main result: what `next` tells of a machine with nothing else to ask. */
  lemma AloneIsTold(inUse: Origin, env: Env, crid: string, option: bool)
    requires inUse == FromRequestOnly || (!env.identity && env.offer == Offered)
    ensures ToldAlone(env, crid, Next(inUse, env, crid, option).reply,
                      if env.alone.error.Some? && UnsupportedVersion in env.alone.error.value.marks
                      then UnsupportedCridVersion else ValidCridRequired)
  {
    hide Classify, Means;
    ClassifyIsPublic();
    AloneMeans(env, crid);
  }

  /** What the first request of a device came to: the answer to the request as a device;
      when the SDK could not have the key, what it kept of the answer before it asked for
      one; and when it was given no way to read a key, the answer to the request with the
      CRID alone. */
  function FirstAnswered(env: Env): SdkAnswer {
    match env.asDevice.error
    case None => env.asDevice
    case Some(e) =>
      if e.keySource.Some? then
        SdkAnswer(None, if e.keySource.value.Some? then Some(SdkError(e.keySource.value.value, None)) else None)
      else if InvalidDeviceKey in e.marks then env.aloneShort
      else env.asDevice
  }

  /** The share request's own answer, or another when it says "not found". */
  ghost predicate ToldByShare(env: Env, crid: string, reply: Reply, notFound: nat -> Reply) {
    match env.share
    case Shared(Some(link)) =>
      reply == if link.crid == crid && crid != "" then Gave(link, FromShare) else Fails(ShareUnverified)
    case Shared(None) => reply == Fails(ShareUnverified)
    case Refused(false, code) => reply == Fails(ShareFailed(code))
    case Refused(true, code) => reply == notFound(code)
  }

  /** What follows a link request that gave no link: nothing when the user interrupted,
      the share request's answer, and `error` when that says "not found". Only when the
      short limit ran out is the link request made once more. */
  ghost predicate ToldAfter(env: Env, crid: string, reply: Reply, error: Option<LinkError>) {
    if error == Some(Canceled) || env.ownEnd == Interrupted then reply == Fails(Canceled)
    else if error == Some(NoAnswer) && env.shortEnd == TimeOver && env.ownThen == Running then
      if env.share.Refused? && env.share.notFound then ToldAlone(env, crid, reply, ShareNotFound(env.share.code))
      else ToldByShare(env, crid, reply, (code: nat) => Fails(ShareNotFound(code)))
    else
      ToldByShare(env, crid, reply, (code: nat) => Fails(if error == None then ShareNotFound(code) else error.value))
  }

  /** Main result: what a device is told that asks for a link first, unless the reading
      of its key was cut off. */
  lemma RequestIsTold(env: Env, crid: string)
    requires env.identity && env.offer == Offered
    requires env.asDevice.error.Some? && env.asDevice.error.value.keySource.Some? ==> env.deviceEnd == Running
    ensures var reply, a := LinkForGet(env, crid, false).reply, FirstAnswered(env);
            match a.error
            case None =>
              if a.url.Some? && a.url.value != "" then reply == Gave(Link(a.url.value, crid), FromRequest)
              else ToldAfter(env, crid, reply, Some(LinkRefused))
            case Some(e) =>
              if InvalidResource in e.marks then ToldAfter(env, crid, reply, None)
              else exists error :: Means(e.marks, true, error) && ToldAfter(env, crid, reply, Some(error))
  {
    hide Classify, Means;
    ClassifyIsPublic();
    AloneMeans(env, crid);
    if FirstAnswered(env).error.Some? {
      var marks := FirstAnswered(env).error.value.marks;
      ClassifyMeans(marks, true, Classify(marks, true));
    }
  }

  /** Main result: what a device is told that asks for its share first. */
  lemma ShareIsTold(env: Env, crid: string, option: bool)
    requires env.identity && (option || env.offer != Offered)
    ensures var reply := LinkForGet(env, crid, option).reply;
            if env.share.Refused? && env.share.notFound && env.offer == Offered then
              ToldAlone(env, crid, reply, ShareNotFound(env.share.code))
            else
              ToldByShare(env, crid, reply, (code: nat) => Fails(match env.offer
                                                          case WrongSetup(true) => SetupFault
                                                          case WrongSetup(false) => AccessNotConfigured
                                                          case _ => ShareNotFound(code)))
  {
    hide Classify, Means;
    ClassifyIsPublic();
    AloneMeans(env, crid);
  }

  /** A device whose short limit cut off the reading of its key goes on as one whose
      request got no answer, and one that the user interrupted there stops. */
  lemma KeyReadIsTold(env: Env, crid: string)
    requires env.identity && env.offer == Offered
    requires env.asDevice.error.Some? && env.asDevice.error.value.keySource.Some? && env.deviceEnd != Running
    ensures ToldAfter(env, crid, LinkForGet(env, crid, false).reply,
                      Some(if env.deviceEnd == Interrupted then Canceled else NoAnswer))
  {
    hide Means;
    AloneMeans(env, crid);
  }

  /** Every link names the CRID that was asked for. */
  lemma LinksNameTheCrid(inUse: Origin, env: Env, crid: string, option: bool)
    ensures var reply := Next(inUse, env, crid, option).reply; reply.Gave? ==> reply.link.crid == crid
  {
    hide Classify;
  }

  predicate ShareSaidNotFound(env: Env, crid: string) {
    ShareLink(crid, env.share).Err? && ShareLink(crid, env.share).error.ShareNotFound?
  }

  /** What an origin says, in both directions: a link is from the share request
      exactly when that request gave it; from the link request, with the share
      request still to ask, exactly when it was not asked and there is an identity
      to ask it with; and from the link request only when the share request cannot
      give one. */
  lemma OriginMeans(env: Env, crid: string, option: bool)
    requires LinkForGet(env, crid, option).reply.Gave?
    ensures var a := LinkForGet(env, crid, option);
            && (a.reply.origin == FromShare <==> AskShare in a.asked && ShareLink(crid, env.share) == Ok(a.reply.link))
            && (a.reply.origin == FromRequest <==> env.identity && AskShare !in a.asked)
            && (a.reply.origin == FromRequestOnly <==>
                  (!env.identity && AskShare !in a.asked) || (AskShare in a.asked && ShareSaidNotFound(env, crid)))
  {
    hide Classify;
  }

  /** A share option is asked for first, and never given up for a link that the
      share request could have given. */
  lemma OptionKept(env: Env, crid: string)
    requires env.identity
    ensures var a := LinkForGet(env, crid, true);
            && AskAsDevice !in a.asked && AskAlone(Short) !in a.asked && a.asked[..1] == [AskShare]
            && (ShareLink(crid, env.share).Ok? <==> a.reply.Gave? && a.reply.origin == FromShare)
  {
    hide Classify;
  }

  /** One call asks at most four questions and none of them twice; the share
      request's failure, other than "not found", always ends it. */
  lemma NothingIsAskedTwice(inUse: Origin, env: Env, crid: string, option: bool)
    ensures var a := Next(inUse, env, crid, option);
            && |a.asked| <= 4
            && (forall i, j :: 0 <= i < j < |a.asked| ==> a.asked[i] != a.asked[j])
            && (forall i :: 0 <= i < |a.asked| - 1 && a.asked[i] == AskShare ==>
                  ShareSaidNotFound(env, crid) && a.asked[i + 1..] == [AskAlone(Long)])
  {
    hide Classify;
  }

  // ------------------------------------------------------------ order of asking

  /** What a service that answers alike both times means: the first stage of the
      request as a device is the request with the CRID alone. So unless the short
      limit ran out, it gives the link that request would give. */
  predicate FirstStageAgrees(env: Env, crid: string) {
    var r := BeforeShare(env, crid).0;
    Alone(crid, true, env.alone).Ok? ==> r == Alone(crid, true, env.alone) || RanOut(env, r)
  }

  /** The SDK's rule in its own terms: a request as a device first asks with the CRID
      alone, and an answer with a link settles it, unless the short limit cut it off
      before that answer came or while the key was read. */
  predicate CutOff(env: Env) {
    && (|| env.asDevice.error == Some(SdkError({CtxDeadline}, None))
        || (KeyNotGiven(env.asDevice.error) && env.deviceEnd == TimeOver))
    && env.shortEnd == TimeOver && env.ownThen == Running
  }

  lemma FirstStageFollowsTheRule(env: Env, crid: string)
    requires env.alone.error == None ==> env.asDevice == env.alone || CutOff(env)
    ensures FirstStageAgrees(env, crid)
  {
  }

  predicate UserInterrupts(env: Env, crid: string) {
    BeforeShare(env, crid).0 == Err(Canceled) || (BeforeShare(env, crid).0.Err? && env.ownEnd == Interrupted)
  }

  /** Main result: asking for the link first costs no link. Whenever the order with
      the share request first would give one, so does the order with the link
      request first. */
  lemma OrderCostsNoLink(env: Env, crid: string)
    requires env.offer == Offered
    requires FirstStageAgrees(env, crid) && !UserInterrupts(env, crid)
    requires ShareFirst(env, crid).reply.Gave?
    ensures RequestFirst(env, crid).reply.Gave?
  {
    hide Classify;
  }

  /** Without the two assumptions: exactly when it costs one. */
  lemma WhenOrderCostsALink(env: Env, crid: string)
    requires env.offer == Offered && ShareFirst(env, crid).reply.Gave?
    ensures RequestFirst(env, crid).reply.Fails? <==>
              BeforeShare(env, crid).0.Err?
              && (UserInterrupts(env, crid)
                  || (ShareSaidNotFound(env, crid) && !RanOut(env, BeforeShare(env, crid).0)))
  {
    hide Classify;
  }

  /** And it changes no failure, as long as the whole link request, and not only its
      first stage, ends as the request with the CRID alone does. */
  lemma OrderChangesNoFailure(env: Env, crid: string)
    requires env.offer == Offered && !UserInterrupts(env, crid)
    requires var r := BeforeShare(env, crid).0; r == Alone(crid, true, env.alone) || RanOut(env, r)
    ensures ShareFirst(env, crid).reply.Fails? && RequestFirst(env, crid).reply.Fails? ==>
              ShareFirst(env, crid).reply == RequestFirst(env, crid).reply
    ensures ShareFirst(env, crid).reply.Gave? ==> RequestFirst(env, crid).reply.Gave?
  {
    hide Classify;
  }

  // ------------------------------------------------------ the documented tables

  /** What the link request that comes first ends in, and the share request after it. */
  datatype FirstAnswer =
    | ALink | SaidNotFound | LimitOver | OtherNoAnswer | OtherRefusal(error: LinkError) | NotSent | Stopped

  datatype ShareKind = ShareGives | ShareHasNone | ShareFails

  datatype Outcome =
    | TheLink | TheShareLink | TheShareFailure | TheShareNotFound | NotFoundForADevice | NobodyAnswered
    | TheRefusal(error: LinkError) | TheLongAnswer | NoErrorText | CridRefused | SetupIsWrong

  /** One row: the result, and everything that is sent. */
  datatype Row = Row(outcome: Outcome, sent: seq<Request>)

  /** The share request alone; its answer stands. */
  function ShareRow(share: ShareKind): Row {
    match share
    case ShareGives => Row(TheShareLink, [AskShare])
    case ShareHasNone => Row(TheShareNotFound, [AskShare])
    case ShareFails => Row(TheShareFailure, [AskShare])
  }

  /** The table of a device that asked for a link first, and sent `first` for it.
      `again` says whether the SDK would ask once more. */
  function SecondTable(first: seq<Request>, answer: FirstAnswer, share: ShareKind, again: bool): Row {
    match (answer, share)
    case (ALink, _) => Row(TheLink, first)
    case (Stopped, _) => Row(NoErrorText, first)
    case (_, ShareGives) => Row(TheShareLink, first + [AskShare])
    case (_, ShareFails) => Row(TheShareFailure, first + [AskShare])
    case (SaidNotFound, _) => Row(NotFoundForADevice, first + [AskShare])
    case (LimitOver, _) =>
      if again then Row(TheLongAnswer, first + [AskShare, AskAlone(Long)])
      else Row(TheShareNotFound, first + [AskShare])
    case (OtherNoAnswer, _) => Row(NobodyAnswered, first + [AskShare])
    case (OtherRefusal(e), _) => Row(TheRefusal(e), first + [AskShare])
    case (NotSent, _) => Row(TheShareNotFound, first + [AskShare])
  }

  /** The table of the first link, its eleven rows in their order: identity, share
      option, whether the request is offered, whether this client can ask for the CRID,
      and whether there is a device key. The last three go on in the second table, or
      end where the user interrupts. */
  function FirstTable(identity: bool, option: bool, offer: Offer, canAsk: bool, key: bool,
                      answer: FirstAnswer, share: ShareKind, again: bool): Row {
    match (identity, option, offer, canAsk, key)
    case (false, _, Offered, true, _) => Row(TheLongAnswer, [AskAlone(Long)])
    case (false, _, Offered, false, _) => Row(CridRefused, [])
    case (false, _, NotOffered, _, _) => ShareRow(share)
    case (false, _, WrongSetup(_), _, _) => Row(SetupIsWrong, [])
    case (true, _, NotOffered, _, _) => ShareRow(share)
    case (true, _, WrongSetup(_), _, _) =>
      if share.ShareHasNone? then Row(SetupIsWrong, [AskShare]) else ShareRow(share)
    case (true, true, Offered, true, _) =>
      if share.ShareHasNone? then Row(TheLongAnswer, [AskShare, AskAlone(Long)]) else ShareRow(share)
    case (true, true, Offered, false, _) => ShareRow(share)
    case (true, false, Offered, true, true) => SecondTable([AskAsDevice], answer, share, again)
    case (true, false, Offered, true, false) => SecondTable([AskAlone(Short)], answer, share, again)
    case (true, false, Offered, false, _) => if answer.Stopped? then Row(NoErrorText, []) else ShareRow(share)
  }

  // How an environment meets the columns.

  /** The SDK will not ask for the CRID, and sends nothing. */
  predicate Unsent(a: SdkAnswer) {
    a.error.Some? && InvalidResource in a.error.value.marks
  }

  /** The SDK was given no function to read the key with, and sends nothing. */
  predicate NoKeyFunction(a: SdkAnswer) {
    a.error.Some? && !KeyNotGiven(a.error) && InvalidDeviceKey in a.error.value.marks
  }

  predicate HasKey(env: Env) {
    !KeyNotGiven(env.asDevice.error) && !NoKeyFunction(env.asDevice)
  }

  /** Whether the link request that a machine would make is one the SDK sends. */
  predicate CanAsk(env: Env, option: bool) {
    if !env.identity || option then !Unsent(env.alone)
    else if NoKeyFunction(env.asDevice) then !Unsent(env.aloneShort)
    else KeyNotGiven(env.asDevice.error) || !Unsent(env.asDevice)
  }

  /** What goes out for one call: nothing for a request that the SDK refuses before it
      sends, and only the request with the CRID alone when the SDK got no device key. */
  function SentFor(env: Env, r: Request): seq<Request> {
    match r
    case AskShare => [AskShare]
    case AskAsDevice =>
      if KeyNotGiven(env.asDevice.error) then [AskAlone(Short)]
      else if NoKeyFunction(env.asDevice) || Unsent(env.asDevice) then []
      else [AskAsDevice]
    case AskAlone(Short) => if Unsent(env.aloneShort) then [] else [r]
    case AskAlone(Long) => if Unsent(env.alone) then [] else [r]
  }

  function Sent(env: Env, asked: seq<Request>): seq<Request> {
    if asked == [] then [] else SentFor(env, asked[0]) + Sent(env, asked[1..])
  }

  function AnswerOf(env: Env, crid: string): FirstAnswer {
    var r := BeforeShare(env, crid).0;
    if r.Ok? then ALink
    else if UserInterrupts(env, crid) then Stopped
    else if r.error.NotRequestable? then NotSent
    else if r.error == CridNotFound then SaidNotFound
    else if r.error != NoAnswer then OtherRefusal(r.error)
    else if RanOut(env, r) then LimitOver
    else OtherNoAnswer
  }

  function ShareOf(env: Env, crid: string): ShareKind {
    if ShareLink(crid, env.share).Ok? then ShareGives
    else if ShareSaidNotFound(env, crid) then ShareHasNone
    else ShareFails
  }

  /** What each outcome tells the user, in terms of what was answered. */
  predicate Tells(env: Env, crid: string, outcome: Outcome, reply: Reply) {
    var share, long := ShareLink(crid, env.share), Alone(crid, env.identity, env.alone);
    match outcome
    case TheLink => BeforeShare(env, crid).0.Ok? && reply == Gave(BeforeShare(env, crid).0.value, FromRequest)
    case TheShareLink => share.Ok? && reply == Gave(share.value, FromShare)
    case TheShareFailure => share.Err? && !share.error.ShareNotFound? && reply == Fails(share.error)
    case TheShareNotFound => share.Err? && share.error.ShareNotFound? && reply == Fails(share.error)
    case NotFoundForADevice => reply == Fails(CridNotFound)
    case NobodyAnswered => reply == Fails(NoAnswer)
    case TheRefusal(e) => reply == Fails(e)
    case TheLongAnswer => if long.Ok? then reply == Gave(long.value, FromRequestOnly) else reply == Fails(long.error)
    case NoErrorText => reply == Fails(Canceled)
    case CridRefused =>
      && Unsent(env.alone)
      && reply == Fails(if UnsupportedVersion in env.alone.error.value.marks then UnsupportedCridVersion
                        else ValidCridRequired)
    case SetupIsWrong =>
      && env.offer.WrongSetup?
      && reply == Fails(if env.offer.entry then SetupFault else AccessNotConfigured)
  }

  lemma SentTwo(env: Env, a: Request, b: Request)
    ensures Sent(env, [a]) == SentFor(env, a)
    ensures Sent(env, [a, b]) == SentFor(env, a) + SentFor(env, b)
  {
    assert [a, b][1..] == [b] && [b][1..] == [] && [a][1..] == [];
  }

  lemma {:induction false} SentBoth(env: Env, asked: seq<Request>, more: seq<Request>)
    ensures Sent(env, asked + more) == Sent(env, asked) + Sent(env, more)
  {
    if asked == [] {
      assert asked + more == more;
    } else {
      assert (asked + more)[1..] == asked[1..] + more;
      SentBoth(env, asked[1..], more);
    }
  }

  /** What the link request that comes first sends. */
  lemma FirstSent(env: Env, crid: string)
    ensures Sent(env, BeforeShare(env, crid).1)
            == if !CanAsk(env.(identity := true), false) then []
               else if HasKey(env) then [AskAsDevice]
               else [AskAlone(Short)]
    ensures !CanAsk(env.(identity := true), false) ==>
              BeforeShare(env, crid).0.Err? && BeforeShare(env, crid).0.error.NotRequestable?
  {
    hide Classify;
    ClassifyIsPublic();
    SentTwo(env, AskAsDevice, AskAlone(Short));
  }

  /** Main result: the code is the second table, for every answer to every request. */
  lemma SecondTableHolds(env: Env, crid: string)
    requires env.identity
    ensures var a := RequestFirst(env, crid);
            var row := SecondTable(Sent(env, BeforeShare(env, crid).1), AnswerOf(env, crid), ShareOf(env, crid),
                                   !Unsent(env.alone));
            Sent(env, a.asked) == row.sent && Tells(env, crid, row.outcome, a.reply)
  {
    hide Classify, SentFor, Sent;
    ClassifyIsPublic();
    var first := BeforeShare(env, crid).1;
    SentBoth(env, first, [AskShare]);
    SentBoth(env, first, [AskShare, AskAlone(Long)]);
    SentTwo(env, AskShare, AskAlone(Long));
    LateRequests(env);
  }

  lemma LateRequests(env: Env)
    ensures SentFor(env, AskShare) == [AskShare]
    ensures SentFor(env, AskAlone(Long)) == if Unsent(env.alone) then [] else [AskAlone(Long)]
  {
  }

  lemma NothingSent(env: Env)
    ensures Sent(env, []) == []
  {
  }

  /** The rows of a device that asks for a link first. */
  lemma RequestRows(env: Env, crid: string)
    requires env.identity && env.offer == Offered
    ensures var a := RequestFirst(env, crid);
            var row := FirstTable(true, false, Offered, CanAsk(env, false), HasKey(env),
                                  AnswerOf(env, crid), ShareOf(env, crid), !Unsent(env.alone));
            Sent(env, a.asked) == row.sent && Tells(env, crid, row.outcome, a.reply)
  {
    assert env.(identity := true) == env;
    SecondTableHolds(env, crid);
    FirstSent(env, crid);
    hide RequestFirst, BeforeShare, Tells, Sent, ShareLink, CanAsk, HasKey, Unsent, ShareSaidNotFound;
  }

  /** The rows of a machine without an identity. */
  lemma NoIdentityRows(env: Env, crid: string, option: bool)
    requires !env.identity
    ensures var a := NoIdentity(env, crid);
            var row := FirstTable(false, option, env.offer, CanAsk(env, option), HasKey(env),
                                  AnswerOf(env, crid), ShareOf(env, crid), !Unsent(env.alone));
            Sent(env, a.asked) == row.sent && Tells(env, crid, row.outcome, a.reply)
  {
    hide Classify, SentFor, Sent, BeforeShare, AnswerOf, HasKey;
    ClassifyIsPublic();
    NothingSent(env);
    SentTwo(env, AskShare, AskAlone(Long));
    SentTwo(env, AskAlone(Long), AskShare);
    LateRequests(env);
  }

  /** The rows where the share request comes first. */
  lemma ShareRows(env: Env, crid: string, option: bool)
    requires env.identity && (option || env.offer != Offered)
    ensures var a := ShareFirst(env, crid);
            var row := FirstTable(true, option, env.offer, CanAsk(env, option), HasKey(env),
                                  AnswerOf(env, crid), ShareOf(env, crid), !Unsent(env.alone));
            Sent(env, a.asked) == row.sent && Tells(env, crid, row.outcome, a.reply)
  {
    hide Classify, SentFor, Sent, BeforeShare, AnswerOf, HasKey;
    ClassifyIsPublic();
    SentTwo(env, AskShare, AskAlone(Long));
    LateRequests(env);
  }

  /** Main result: the code is the first table, row by row, for every environment: what
      is told and what is sent, down to "nothing sent" where this client cannot ask. */
  lemma FirstTableHolds(env: Env, crid: string, option: bool)
    ensures var a := LinkForGet(env, crid, option);
            var row := FirstTable(env.identity, option, env.offer, CanAsk(env, option), HasKey(env),
                                  AnswerOf(env, crid), ShareOf(env, crid), !Unsent(env.alone));
            Sent(env, a.asked) == row.sent && Tells(env, crid, row.outcome, a.reply)
  {
    hide FirstTable, RequestFirst, ShareFirst, NoIdentity, Tells, Sent, CanAsk, HasKey, AnswerOf, ShareOf, Unsent;
    if !env.identity {
      NoIdentityRows(env, crid, option);
    } else if option || env.offer != Offered {
      ShareRows(env, crid, option);
    } else {
      RequestRows(env, crid);
    }
  }

  /** "Not found" is never told for a resource about which the link request got no
      answer: then the user is told that there was none. */
  lemma NoAnswerIsNotNotFound(env: Env, crid: string)
    requires env.identity && env.offer == Offered && ShareSaidNotFound(env, crid) && !UserInterrupts(env, crid)
    requires BeforeShare(env, crid).0 == Err(NoAnswer)
    ensures var a := RequestFirst(env, crid);
            if RanOut(env, Err(NoAnswer)) then
              && a.asked[|a.asked| - 1] == AskAlone(Long)
              && (Alone(crid, true, env.alone) == Err(NoAnswer) ==> a.reply == Fails(NoAnswer))
            else a.reply == Fails(NoAnswer) && AskAlone(Long) !in a.asked
  {
    hide Classify;
  }

  /** A read of the key that the short limit cut off counts as the limit running
      out, and not as a device that has no key. */
  lemma KeyReadCutOff(env: Env, crid: string)
    requires KeyNotGiven(env.asDevice.error) && env.deviceEnd == TimeOver && env.shortEnd == TimeOver
             && env.ownThen == Running
    ensures RanOut(env, BeforeShare(env, crid).0) && BeforeShare(env, crid).1 == [AskAsDevice]
  {
  }

  /** A device whose key cannot be read asked with the CRID alone: its answer is the
      first request's. */
  lemma NoKeyIsTheFirstAnswer(env: Env, crid: string, first: set<Mark>)
    requires env.asDevice.error.Some? && env.asDevice.error.value.keySource == Some(Some(first))
    requires env.deviceEnd == Running && InvalidResource !in first
    ensures var (r, asked) := BeforeShare(env, crid); r.Err? && Means(first, true, r.error) && asked == [AskAsDevice]
  {
    ClassifyIsPublic();
    ClassifyMeans(first, true, Classify(first, true));
    hide Classify, Means;
  }

  // ------------------------------------------------------------------ whole runs

  /** One call of `next` and whether its link passed the link check. */
  datatype Event = Event(env: Env, passes: bool)

  function After(inUse: Origin, e: Event, crid: string, option: bool): Origin {
    var reply := Next(inUse, e.env, crid, option).reply;
    if reply.Gave? && e.passes then reply.origin else inUse
  }

  function Memory(events: seq<Event>, crid: string, option: bool): Origin {
    if events == [] then FromShare
    else After(Memory(events[..|events| - 1], crid, option), events[|events| - 1], crid, option)
  }

  /** Everything a run asks. */
  function Asks(events: seq<Event>, crid: string, option: bool): seq<Request> {
    if events == [] then []
    else
      var before := events[..|events| - 1];
      Asks(before, crid, option) + Next(Memory(before, crid, option), events[|events| - 1].env, crid, option).asked
  }

  function OnlyAlone(n: nat): seq<Request> {
    seq(n, _ => AskAlone(Long))
  }

  /** Main result: once the link in use came from the link request alone, with any
      number of refreshes, every later question is the link request with the CRID
      alone, and every later link comes from it. */
  lemma {:induction false} RequestOnlyIsForEver(events: seq<Event>, crid: string, option: bool, i: nat)
    requires i <= |events| && Memory(events[..i], crid, option) == FromRequestOnly
    ensures Memory(events, crid, option) == FromRequestOnly
    ensures Asks(events, crid, option) == Asks(events[..i], crid, option) + OnlyAlone(|events| - i)
  {
    hide Classify;
    if i == |events| {
      assert events[..i] == events;
    } else {
      var before := events[..|events| - 1];
      assert before[..i] == events[..i];
      RequestOnlyIsForEver(before, crid, option, i);
      assert OnlyAlone(|events| - i) == OnlyAlone(|before| - i) + [AskAlone(Long)];
    }
  }

  predicate NeverNames(asked: seq<Request>) {
    AskShare !in asked && AskAsDevice !in asked
  }

  /** Main result: a machine with no identity, where the request stays offered or
      wrongly set up, is never named to the service, and so never enrolled. */
  lemma {:induction false} NoIdentityIsNeverNamed(events: seq<Event>, crid: string, option: bool)
    requires forall e :: e in events ==> !e.env.identity && e.env.offer != NotOffered
    ensures NeverNames(Asks(events, crid, option))
    ensures Memory(events, crid, option) != FromRequest
  {
    hide Classify;
    if events != [] {
      NoIdentityIsNeverNamed(events[..|events| - 1], crid, option);
    }
  }

  /** The memory changes only by a link that passed its check, and says where the
      last such link came from. */
  lemma {:induction false} MemoryIsTheLinkInUse(events: seq<Event>, crid: string, option: bool) returns (last: nat)
    requires Memory(events, crid, option) != FromShare
    ensures last < |events| && events[last].passes
    ensures Next(Memory(events[..last], crid, option), events[last].env, crid, option).reply.Gave?
    ensures Next(Memory(events[..last], crid, option), events[last].env, crid, option).reply.origin
            == Memory(events, crid, option)
  {
    hide Classify;
    var before := events[..|events| - 1];
    var e := events[|events| - 1];
    if Next(Memory(before, crid, option), e.env, crid, option).reply.Gave? && e.passes {
      last := |before|;
      assert events[..last] == before;
    } else {
      last := MemoryIsTheLinkInUse(before, crid, option);
      assert before[..last] == events[..last];
    }
  }
}

/** The link source of one run, which updates its memory in place. */
module GetLinkObject {
  import opened Wrappers
  import opened GetLink

  class LinkSource {
    const crid: string
    const option: bool
    var inUse: Origin

    constructor (crid: string, option: bool)
      ensures this.crid == crid && this.option == option && inUse == Memory([], crid, option)
    {
      this.crid := crid;
      this.option := option;
      inUse := FromShare;
    }

    method NextLink(env: Env) returns (a: Asked)
      ensures a == Next(inUse, env, crid, option)
    {
      if inUse != FromRequestOnly {
        a := LinkForGet(env, crid, option);
        return;
      }
      var r := Alone(crid, env.identity, env.alone);
      if r.Err? && r.error.NotRequestable? {
        r := Err(Refusal(r.error));
      }
      a := Asked(WithOrigin(r, FromRequestOnly), [AskAlone(Long)]);
    }

    method Verified(origin: Origin)
      modifies this
      ensures inUse == origin
    {
      inUse := origin;
    }

    /** One step of a run: a link that fails its check is not handed out, and leaves
        the memory alone. */
    method Mint(env: Env, passes: bool, ghost before: seq<Event>) returns (link: Option<Link>, asked: seq<Request>)
      requires inUse == Memory(before, crid, option)
      modifies this
      ensures inUse == Memory(before + [Event(env, passes)], crid, option)
      ensures Asks(before + [Event(env, passes)], crid, option) == Asks(before, crid, option) + asked
      ensures link.Some? ==> passes && link.value.crid == crid
      ensures link.Some? <==> passes && Next(old(inUse), env, crid, option).reply.Gave?
    {
      ghost var after := before + [Event(env, passes)];
      assert after[..|after| - 1] == before;
      LinksNameTheCrid(inUse, env, crid, option);
      var a := NextLink(env);
      asked := a.asked;
      if a.reply.Fails? || !passes {
        return None, asked;
      }
      Verified(a.reply.origin);
      link := Some(a.reply.link);
    }
  }
}
