/** StreamManager.createStream: builds the initial session record, inserts
    it into the streams table and returns it. */
module StreamManager {
  import opened Records

  /** The streams table after the insert, and the record returned. */
  function CreateStream(streams: map<StreamId, Stream>, p: CreateParams, channelId: string, id: StreamId, now: Timestamp)
    : (r: (map<StreamId, Stream>, Stream))
    ensures r.0 == streams[id := r.1]
    ensures r.1 == InitialStream(id, channelId, p, now, None)
    ensures r.1.title == p.title && r.1.accessType == p.accessType && r.1.streamKey == None
    ensures r.1.id == id && r.1.channelId == channelId && r.1.creatorUserId == p.creatorUserId
    ensures r.1.status == Offline
    ensures r.1.goals == [] && r.1.games == [] && r.1.gifts == [] && r.1.tips == []
    ensures r.1.multiCamUrls == [] && r.1.announcements == []
    ensures r.1.createdAt == now && r.1.updatedAt == now
    ensures p.isPrivate.None? ==> !r.1.isPrivate
    ensures p.pricingType.None? ==> r.1.pricingType == Free
    ensures p.description.None? ==> r.1.description == ""
    ensures p.tags.None? ==> r.1.tags == []
    ensures p.allowComments.None? ==> r.1.allowComments
    ensures p.collaborators.None? ==> r.1.collaborators == []
  {
    var item := InitialStream(id, channelId, p, now, None);
    (streams[id := item], item)
  }
}
