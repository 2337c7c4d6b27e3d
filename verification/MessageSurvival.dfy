/**
  What parsing and merging leave behind can always be read back: strings are valid UTF-8, and unknown bytes are
  records the type does not know.  So a message that came in over the wire survives being written and read again,
  unknown fields included.
*/
module MessageSurvival {
  import opened Common
  import opened Wire
  import opened Messages
  import opened MessageLaws

  // ---- unknown bytes ----

  lemma KeptBoth(knows: Rec -> bool, u: seq<byte>, v: seq<byte>)
    requires Kept(knows, u) && Kept(knows, v)
    ensures Kept(knows, u + v)
  {
    var us :| KeptAs(knows, u, us);
    var vs :| KeptAs(knows, v, vs);
    EncodeAppend(us, vs);
    assert KeptAs(knows, u + v, us + vs);
  }

  lemma KeptOne(knows: Rec -> bool, r: Rec)
    requires RecOk(r) && !knows(r)
    ensures Kept(knows, EncodeRec(r))
  {
    OneRecSize(r);
    assert KeptAs(knows, EncodeRec(r), [r]);
  }

  lemma KeptMore(knows: Rec -> bool, u: seq<byte>, r: Rec)
    requires Kept(knows, u) && RecOk(r) && !knows(r)
    ensures Kept(knows, u + EncodeRec(r))
  {
    KeptOne(knows, r);
    KeptBoth(knows, u, EncodeRec(r));
  }

  // ---- a property every record keeps is kept by parsing ----

  lemma {:induction false} ParseKeeps<M(!new)>(apply: (M, Rec) -> Option<M>, sound: M -> bool, b: seq<byte>, m: M)
    requires sound(m)
    requires forall x: M, r: Rec :: sound(x) && RecOk(r) && apply(x, r).Some? ==> sound(apply(x, r).value)
    ensures Parse(apply, b, m).Some? ==> sound(Parse(apply, b, m).value)
    decreases |b|
  {
    var r := ReadRec(b);
    if b != [] && r.Record? && apply(m, r.rec).Some? {
      ReadIsOk(b);
      ParseKeeps(apply, sound, b[r.used..], apply(m, r.rec).value);
    }
  }

  ghost predicate ProfileSound(p: Profile) { ProfileText(p) && ProfileKept(p) }

  ghost predicate LinkSound(l: Link) { LinkText(l) && LinkKept(l) }

  lemma ProfileStep(m: Profile, r: Rec)
    requires ProfileSound(m) && RecOk(r) && ApplyProfile(m, r).Some?
    ensures ProfileSound(ApplyProfile(m, r).value)
  {
    if !ProfileKnows(r) { KeptMore(ProfileKnows, m.unknown, r); }
  }

  lemma ParsedProfile(b: seq<byte>, m: Profile)
    requires ProfileSound(m) && ParseProfile(b, m).Some?
    ensures ProfileSound(ParseProfile(b, m).value)
  {
    forall x: Profile, r: Rec | ProfileSound(x) && RecOk(r) && ApplyProfile(x, r).Some? ensures ProfileSound(ApplyProfile(x, r).value) {
      ProfileStep(x, r);
    }
    ParseKeeps(ApplyProfile, x => ProfileSound(x), b, m);
  }

  lemma LinkStep(m: Link, r: Rec)
    requires LinkSound(m) && RecOk(r) && ApplyLink(m, r).Some?
    ensures LinkSound(ApplyLink(m, r).value)
  {
    if !LinkKnows(r) { KeptMore(LinkKnows, m.unknown, r); }
  }

  lemma ParsedLink(b: seq<byte>, m: Link)
    requires LinkSound(m) && ParseLink(b, m).Some?
    ensures LinkSound(ParseLink(b, m).value)
  {
    forall x: Link, r: Rec | LinkSound(x) && RecOk(r) && ApplyLink(x, r).Some? ensures LinkSound(ApplyLink(x, r).value) {
      LinkStep(x, r);
    }
    ParseKeeps(ApplyLink, x => LinkSound(x), b, m);
  }

  lemma EmptyIsSound()
    ensures ProfileSound(NO_PROFILE) && LinkSound(NO_LINK) && PostSound(NO_POST) && ReqKept(NO_REQ)
  {
    NothingUnknown(ProfileKnows);
    NothingUnknown(LinkKnows);
    NothingUnknown(PostKnows);
    NothingUnknown(ReqKnows);
  }

  // ---- posts ----

  ghost predicate ProfilesSound(ps: seq<Profile>) { ProfilesText(ps) && ProfilesKept(ps) }

  ghost predicate LinksSound(ls: seq<Link>) { LinksText(ls) && LinksKept(ls) }

  lemma {:induction false} ProfilesJoin(ps: seq<Profile>, qs: seq<Profile>)
    requires ProfilesSound(ps) && ProfilesSound(qs)
    ensures ProfilesSound(ps + qs)
    decreases ps
  {
    if ps == [] {
      assert ps + qs == qs;
    } else {
      ProfilesJoin(ps[1..], qs);
      assert (ps + qs)[1..] == ps[1..] + qs;
    }
  }

  lemma {:induction false} LinksJoin(ls: seq<Link>, ks: seq<Link>)
    requires LinksSound(ls) && LinksSound(ks)
    ensures LinksSound(ls + ks)
    decreases ls
  {
    if ls == [] {
      assert ls + ks == ks;
    } else {
      LinksJoin(ls[1..], ks);
      assert (ls + ks)[1..] == ls[1..] + ks;
    }
  }

  ghost predicate PostSound(p: Post) { PostText(p) && PostKept(p) }

  /** A record that holds a profile or a url leaves a sound one in its place. */
  lemma SubMessageStep(m: Post, f: nat, b: seq<byte>)
    requires PostSound(m) && (f == 2 || 5 <= f <= 7) && ApplyPostBlob(m, f, b).Some?
    ensures PostSound(ApplyPostBlob(m, f, b).value)
  {
    EmptyIsSound();
    if f == 7 {
      ParsedLink(b, NO_LINK);
      LinksJoin(m.urls, [ParseLink(b, NO_LINK).value]);
    } else if f == 2 {
      ParsedProfile(b, OrEmpty(m.creator));
    } else {
      ParsedProfile(b, NO_PROFILE);
      var x := ParseProfile(b, NO_PROFILE).value;
      ProfilesJoin(if f == 5 then m.mentions else m.media, [x]);
    }
  }

  lemma PostStep(m: Post, r: Rec)
    requires PostSound(m) && RecOk(r) && ApplyPost(m, r).Some?
    ensures PostSound(ApplyPost(m, r).value)
  {
    if !PostKnows(r) {
      KeptMore(PostKnows, m.unknown, r);
    } else if r.Blob? && r.field != 4 {
      SubMessageStep(m, r.field, r.payload);
    }
  }

  lemma ParsedPost(b: seq<byte>, m: Post)
    requires PostSound(m) && ParsePost(b, m).Some?
    ensures PostSound(ParsePost(b, m).value)
  {
    forall x: Post, r: Rec | PostSound(x) && RecOk(r) && ApplyPost(x, r).Some? ensures PostSound(ApplyPost(x, r).value) {
      PostStep(x, r);
    }
    ParseKeeps(ApplyPost, x => PostSound(x), b, m);
  }

  /**
    What was read, whatever the bytes and whatever it was read into, survives being written and read again:
    known fields, presence, order of repeated fields, and the bytes of unknown ones.
  */
  lemma ParsedPostSurvives(b: seq<byte>, m: Post, p: Post)
    requires PostSound(m) && ParsePost(b, m) == Some(p) && PostSize(p) <= MAX_LENGTH
    ensures ParsePost(EncodePost(p), NO_POST) == Some(p)
  {
    ParsedPost(b, m);
    PostRoundTrip(p);
  }

  lemma ProfileMergeIsSound(a: Profile, b: Profile)
    requires ProfileSound(a) && ProfileSound(b)
    ensures ProfileSound(MergeProfile(a, b))
  {
    KeptBoth(ProfileKnows, a.unknown, b.unknown);
  }

  /** And merging sound posts gives a sound post. */
  lemma PostMergeIsSound(a: Post, b: Post)
    requires PostSound(a) && PostSound(b)
    ensures PostSound(MergePost(a, b))
  {
    EmptyIsSound();
    KeptBoth(PostKnows, a.unknown, b.unknown);
    if b.creator.Some? { ProfileMergeIsSound(OrEmpty(a.creator), b.creator.value); }
    ProfilesJoin(a.mentions, b.mentions);
    ProfilesJoin(a.media, b.media);
    LinksJoin(a.urls, b.urls);
  }

  /** So what a merge of two sound posts writes reads back as that merge. */
  lemma MergedPostSurvives(a: Post, b: Post)
    requires PostSound(a) && PostSound(b) && PostSize(MergePost(a, b)) <= MAX_LENGTH
    ensures ParsePost(EncodePost(MergePost(a, b)), NO_POST) == Some(MergePost(a, b))
  {
    PostMergeIsSound(a, b);
    PostRoundTrip(MergePost(a, b));
  }

  // ---- requests ----

  lemma ReqStep(m: ReadReq, r: Rec)
    requires ReqKept(m) && RecOk(r) && ApplyReq(m, r).Some?
    ensures ReqKept(ApplyReq(m, r).value)
  {
    if !ReqKnows(r) { KeptMore(ReqKnows, m.unknown, r); }
  }

  lemma ParsedReqSurvives(b: seq<byte>, m: ReadReq, q: ReadReq)
    requires ReqKept(m) && ParseReq(b, m) == Some(q) && ReqSize(q) <= MAX_LENGTH
    ensures ReqKept(q) && ParseReq(EncodeReq(q), NO_REQ) == Some(q)
  {
    forall x: ReadReq, r: Rec | ReqKept(x) && RecOk(r) && ApplyReq(x, r).Some? ensures ReqKept(ApplyReq(x, r).value) {
      ReqStep(x, r);
    }
    ParseKeeps(ApplyReq, x => ReqKept(x), b, m);
    ReqRoundTrip(q);
  }
}
