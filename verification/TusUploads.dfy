/** What the theorems about runs say of the objects that TusHandlers works on, after any calls. */
module TusUploads {
  import opened TusStore
  import opened TusProtocol
  import opened TusInvariant
  import opened TusHandlers
  import opened TusTheorems

  /** An upload of declared size never holds more, and the size respects MaxSize. */
  lemma StoredSizes(u: Uploader, id: Id)
    requires u.Valid() && id in u.store.infos && !u.store.infos[id].deferred
    ensures id in u.store.files && |u.store.files[id]| <= u.store.infos[id].size
    ensures u.cfg.maxSize > 0 ==> u.store.infos[id].size <= u.cfg.maxSize
  {
    hide Next, Enabled, Inv;
    SizesHold(u.cfg, u.run, u.steps, |u.run| - 1, id);
  }

  /** An upload that is not final has sent at most one event, and only as a complete upload. */
  lemma EventsSent(u: Uploader, id: Id)
    requires u.Valid() && u.cfg.notify && id in u.store.infos && !u.store.infos[id].isFinal
    ensures multiset(u.events)[id] <= 1
    ensures id in u.events ==> id in u.store.files && Complete(u.store.infos[id], |u.store.files[id]|)
  {
    hide Next, Enabled;
    RunInv(u.cfg, u.run, u.steps, |u.run| - 1);
    assert UploadOk(u.cfg, u.Now(), id);
    assert id in u.events <==> id in multiset(u.events);
  }
}
