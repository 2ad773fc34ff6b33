/** Records of the IVS session store: the Stream, Stats, join-log and channel
    rows, the enumerations their tables constrain, and the construction of a
    fresh Stream record shared by every variant of createStream. */
module Records {

  type StreamId = string
  type UserId = string
  type GoalId = string
  type GiftId = string
  type EntryId = string
  /** An ISO-8601 time stamp, supplied by the caller in place of the clock. */
  type Timestamp = string
  /** A JSON payload the core stores without looking inside. */
  type Payload = string

  datatype Option<T> = None | Some(value: T) {
    function GetOr(default: T): (r: T)
      ensures Some? ==> r == value
      ensures None? ==> r == default
    {
      match this
      case Some(v) => v
      case None => default
    }
  }

  /** Why an operation stopped. Reading a property of a record the store does
      not hold makes the JavaScript throw a TypeError; provisioning failures
      are rethrown as one error. */
  datatype Error = MissingStream | MissingStats | ProvisioningFailed

  datatype Result<T> = Ok(value: T) | Err(error: Error)

  datatype Outcome = Pass | Fail(error: Error)

  datatype AccessType = OpenFree | OpenPaid | InviteFree | InvitePaid
  datatype PricingType = Free | Ppv | Svod | TokenUnlock
  datatype StreamStatus = Offline | ComingSoon | Live
  datatype Role = Viewer | Collaborator | Moderator | Owner

  /** The text stored in the access_type column for each access type. */
  function AccessTypeName(a: AccessType): string
  {
    match a
    case OpenFree => "open_free"
    case OpenPaid => "open_paid"
    case InviteFree => "invite_free"
    case InvitePaid => "invite_paid"
  }

  /** `sub` occurs in `s` starting at position k. */
  predicate OccursAt(s: string, sub: string, k: nat)
  {
    k + |sub| <= |s| && s[k..k + |sub|] == sub
  }

  lemma OccursShift(s: string, sub: string)
    requires 0 < |s|
    ensures forall k: nat :: OccursAt(s[1..], sub, k) <==> OccursAt(s, sub, k + 1)
  {
    forall k: nat ensures OccursAt(s[1..], sub, k) <==> OccursAt(s, sub, k + 1) {
      if k + |sub| <= |s| - 1 {
        assert s[1..][k..k + |sub|] == s[k + 1..k + 1 + |sub|];
      }
    }
  }

  /** String.prototype.includes: `sub` occurs somewhere in `s`. */
  function Contains(s: string, sub: string): (r: bool)
    ensures r <==> exists k: nat :: OccursAt(s, sub, k)
    decreases |s|
  {
    if |s| < |sub| then false
    else if s[..|sub|] == sub then
      assert OccursAt(s, sub, 0);
      true
    else if |s| == 0 then false
    else
      OccursShift(s, sub);
      assert !OccursAt(s, sub, 0);
      assert (exists k: nat :: OccursAt(s, sub, k)) ==> exists k: nat :: OccursAt(s[1..], sub, k) by {
        if k: nat :| OccursAt(s, sub, k) {
          assert OccursAt(s[1..], sub, k - 1);
        }
      }
      Contains(s[1..], sub)
  }

  /** Every character of a non-empty needle occurs in a haystack containing it. */
  lemma {:induction false} ContainsHasChars(s: string, sub: string, k: nat)
    requires k < |sub| && Contains(s, sub)
    ensures sub[k] in s
    decreases |s|
  {
    if s[..|sub|] == sub {
      assert s[k] == sub[k];
    } else {
      ContainsHasChars(s[1..], sub, k);
      assert sub[k] in s[1..];
    }
  }

  /** Of the stored access-type names, exactly the two open ones include
      "open". */
  lemma OpenNameExactly(a: AccessType)
    ensures Contains(AccessTypeName(a), "open") <==> (a == OpenFree || a == OpenPaid)
  {
    var name := AccessTypeName(a);
    if a == OpenFree || a == OpenPaid {
      assert name[..4] == "open";
    } else {
      assert 'o' !in name;
      if Contains(name, "open") {
        ContainsHasChars(name, "open", 0);
        assert false;
      }
    }
  }

  /** The check validateUserAccess performs, `access_type.includes("open")`:
      only the two open access types grant access; both invite types deny it. */
  predicate GrantsOpenAccess(a: AccessType): (r: bool)
    ensures r <==> (a == OpenFree || a == OpenPaid)
  {
    OpenNameExactly(a);
    Contains(AccessTypeName(a), "open")
  }

  datatype Goal = Goal(id: GoalId, title: string, target: int, progress: int, achieved: bool)

  datatype Tip = Tip(userId: UserId, amount: int, message: string, giftId: Option<GiftId>, timestamp: Timestamp)

  datatype Announcement = Announcement(title: string, body: string, timestamp: Timestamp)

  /** A row of the IVSStreams table. */
  datatype Stream = Stream(
    id: StreamId,
    channelId: string,
    creatorUserId: UserId,
    title: string,
    description: string,
    accessType: AccessType,
    isPrivate: bool,
    pricingType: PricingType,
    allowComments: bool,
    collaborators: seq<UserId>,
    tags: seq<string>,
    goals: seq<Goal>,
    games: seq<Payload>,
    gifts: seq<Payload>,
    tips: seq<Tip>,
    multiCamUrls: seq<string>,
    announcements: seq<Announcement>,
    status: StreamStatus,
    createdAt: Timestamp,
    updatedAt: Timestamp,
    streamKey: Option<string>)

  /** One entry of a tip board: a tipper and the sum of their tips. */
  datatype BoardEntry = BoardEntry(userId: UserId, total: int)

  datatype ToyEntry = ToyEntry(data: Payload, timestamp: Timestamp)

  /** A row of the IVSStats table; tip_board and toys_log may be absent in a
      stored row, which the code replaces by an empty list. */
  datatype Stats = Stats(
    likes: int,
    tipsTotal: int,
    tipBoard: Option<seq<BoardEntry>>,
    highestTipper: Option<UserId>,
    toysLog: Option<seq<ToyEntry>>)

  /** The row an increment creates when the stream has no stats yet. likes,
      tip_board and toys_log take the IVSStats column defaults and
      highest_tipper is null; the table declares no tips_total column, so
      its starting value of zero is an assumption of this model. */
  function DefaultStats(): (r: Stats)
    ensures r.likes == 0 && r.tipsTotal == 0 && r.highestTipper == None
    ensures r.tipBoard == Some([]) && r.toysLog == Some([])
  {
    Stats(0, 0, Some([]), None, Some([]))
  }

  /** A row of the join-log table. */
  datatype JoinEntry = JoinEntry(
    id: EntryId,
    streamId: StreamId,
    userId: UserId,
    joinedAt: Timestamp,
    role: Role,
    leftAt: Option<Timestamp>)

  /** A row of the channels table, keyed by the creator. */
  datatype ChannelRecord = ChannelRecord(
    id: UserId,
    name: string,
    description: string,
    profileThumbnail: string,
    tags: seq<string>,
    language: string,
    category: string,
    followers: int,
    awsChannelArn: string,
    playbackUrl: string,
    createdAt: Timestamp,
    updatedAt: Timestamp)

  /** The arguments of createStream; None stands for an argument left
      undefined, which takes the parameter's default. */
  datatype CreateParams = CreateParams(
    creatorUserId: UserId,
    title: string,
    accessType: AccessType,
    isPrivate: Option<bool>,
    pricingType: Option<PricingType>,
    description: Option<string>,
    tags: Option<seq<string>>,
    allowComments: Option<bool>,
    collaborators: Option<seq<UserId>>)

  /** The record every createStream builds: defaults filled in, every
      engagement collection empty, status offline, one time stamp for both
      creation and update. */
  function InitialStream(id: StreamId, channelId: string, p: CreateParams, now: Timestamp, streamKey: Option<string>): (s: Stream)
    ensures s.id == id && s.channelId == channelId && s.streamKey == streamKey
    ensures s.creatorUserId == p.creatorUserId && s.title == p.title && s.accessType == p.accessType
    ensures s.status == Offline
    ensures s.goals == [] && s.games == [] && s.gifts == [] && s.tips == []
    ensures s.multiCamUrls == [] && s.announcements == []
    ensures s.createdAt == now && s.updatedAt == now
    ensures s.collaborators == (if p.collaborators.Some? then p.collaborators.value else [])
    ensures s.tags == (if p.tags.Some? then p.tags.value else [])
    ensures s.isPrivate == (p.isPrivate == Some(true))
    ensures s.allowComments == (p.allowComments != Some(false))
    ensures s.pricingType == (if p.pricingType.Some? then p.pricingType.value else Free)
    ensures s.description == (if p.description.Some? then p.description.value else "")
  {
    Stream(
      id, channelId, p.creatorUserId, p.title,
      p.description.GetOr(""), p.accessType, p.isPrivate.GetOr(false),
      p.pricingType.GetOr(Free), p.allowComments.GetOr(true),
      p.collaborators.GetOr([]), p.tags.GetOr([]),
      [], [], [], [], [], [],
      Offline, now, now, streamKey)
  }

  /** The fields an updateStream call may carry; None leaves a field alone. */
  datatype StreamPatch = StreamPatch(
    title: Option<string>,
    description: Option<string>,
    accessType: Option<AccessType>,
    isPrivate: Option<bool>,
    pricingType: Option<PricingType>,
    allowComments: Option<bool>,
    status: Option<StreamStatus>,
    tags: Option<seq<string>>)

  /** Merge-update of a Stream with a patch; updated_at is always restamped. */
  function ApplyPatch(s: Stream, patch: StreamPatch, now: Timestamp): (r: Stream)
    ensures r.updatedAt == now
    ensures r.status == (if patch.status.Some? then patch.status.value else s.status)
    ensures r.title == (if patch.title.Some? then patch.title.value else s.title)
    ensures r.tags == (if patch.tags.Some? then patch.tags.value else s.tags)
    ensures r.description == (if patch.description.Some? then patch.description.value else s.description)
    ensures r.accessType == (if patch.accessType.Some? then patch.accessType.value else s.accessType)
    ensures r.isPrivate == (if patch.isPrivate.Some? then patch.isPrivate.value else s.isPrivate)
    ensures r.pricingType == (if patch.pricingType.Some? then patch.pricingType.value else s.pricingType)
    ensures r.allowComments == (if patch.allowComments.Some? then patch.allowComments.value else s.allowComments)
    ensures r.(updatedAt := s.updatedAt, status := s.status, title := s.title, tags := s.tags,
               description := s.description, accessType := s.accessType, isPrivate := s.isPrivate,
               pricingType := s.pricingType, allowComments := s.allowComments) == s
  {
    s.(title := patch.title.GetOr(s.title),
       description := patch.description.GetOr(s.description),
       accessType := patch.accessType.GetOr(s.accessType),
       isPrivate := patch.isPrivate.GetOr(s.isPrivate),
       pricingType := patch.pricingType.GetOr(s.pricingType),
       allowComments := patch.allowComments.GetOr(s.allowComments),
       status := patch.status.GetOr(s.status),
       tags := patch.tags.GetOr(s.tags),
       updatedAt := now)
  }

  /** updateStream performs no lifecycle check: any status, from any status,
      is accepted, including offline to live and live to coming_soon. */
  lemma AnyStatusAccepted(s: Stream, target: StreamStatus, now: Timestamp)
    ensures ApplyPatch(s, StreamPatch(None, None, None, None, None, None, Some(target), None), now)
            == s.(status := target, updatedAt := now)
  {
  }
}
