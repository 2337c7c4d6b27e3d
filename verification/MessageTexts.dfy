/** Which strings survive: a post reads back exactly if each of its strings is some sequence of characters, encoded. */
module MessageTexts {
  import opened Common
  import opened Utf8
  import opened Wire
  import opened Messages
  import opened MessageLaws

  // ---- the strings of a post ----

  function Given(o: Option<seq<byte>>): (ss: seq<seq<byte>>) { if o.Some? then [o.value] else [] }

  function NamesOf(ps: seq<Profile>): (ss: seq<seq<byte>>) {
    if ps == [] then [] else Given(ps[0].name) + NamesOf(ps[1..])
  }

  function UrlsOf(ls: seq<Link>): (ss: seq<seq<byte>>) {
    if ls == [] then [] else Given(ls[0].shortened) + Given(ls[0].expanded) + UrlsOf(ls[1..])
  }

  function StringsOf(p: Post): (ss: seq<seq<byte>>) {
    (if p.creator.Some? then Given(p.creator.value.name) else []) + Given(p.text) + NamesOf(p.mentions) + NamesOf(p.media)
      + UrlsOf(p.urls)
  }

  ghost predicate AllTexts(ss: seq<seq<byte>>) { forall s :: s in ss ==> IsText(s) }

  lemma AllTextsJoin(ss: seq<seq<byte>>, ts: seq<seq<byte>>)
    ensures AllTexts(ss + ts) <==> AllTexts(ss) && AllTexts(ts)
  {
    if AllTexts(ss + ts) {
      forall s | s in ss ensures IsText(s) { assert s in ss + ts; }
      forall s | s in ts ensures IsText(s) { assert s in ss + ts; }
    }
  }

  lemma GivenIsText(o: Option<seq<byte>>)
    ensures TextOk(o) <==> AllTexts(Given(o))
  {
    if o.Some? {
      ValidUtf8Iff(o.value);
      assert o.value in Given(o);
    }
  }

  lemma {:induction false} NamesAreTexts(ps: seq<Profile>)
    ensures ProfilesText(ps) <==> AllTexts(NamesOf(ps))
  {
    if ps != [] {
      GivenIsText(ps[0].name);
      NamesAreTexts(ps[1..]);
      AllTextsJoin(Given(ps[0].name), NamesOf(ps[1..]));
    }
  }

  lemma {:induction false} UrlsAreTexts(ls: seq<Link>)
    ensures LinksText(ls) <==> AllTexts(UrlsOf(ls))
  {
    if ls != [] {
      GivenIsText(ls[0].shortened);
      GivenIsText(ls[0].expanded);
      UrlsAreTexts(ls[1..]);
      AllTextsJoin(Given(ls[0].shortened), Given(ls[0].expanded));
      AllTextsJoin(Given(ls[0].shortened) + Given(ls[0].expanded), UrlsOf(ls[1..]));
    }
  }

  lemma StringsAreTexts(p: Post)
    ensures PostText(p) <==> AllTexts(StringsOf(p))
  {
    var name := if p.creator.Some? then Given(p.creator.value.name) else [];
    if p.creator.Some? { GivenIsText(p.creator.value.name); }
    GivenIsText(p.text);
    NamesAreTexts(p.mentions);
    NamesAreTexts(p.media);
    UrlsAreTexts(p.urls);
    AllTextsJoin(name, Given(p.text));
    AllTextsJoin(name + Given(p.text), NamesOf(p.mentions));
    AllTextsJoin(name + Given(p.text) + NamesOf(p.mentions), NamesOf(p.media));
    AllTextsJoin(name + Given(p.text) + NamesOf(p.mentions) + NamesOf(p.media), UrlsOf(p.urls));
  }

  // ---- what survives ----

  /** A post reads back as it was written if and only if each of its strings encodes some scalar values. */
  lemma PostSurvivesIff(p: Post)
    requires PostSize(p) <= MAX_LENGTH && PostKept(p)
    ensures ParsePost(EncodePost(p), NO_POST) == Some(p) <==> AllTexts(StringsOf(p))
    ensures !AllTexts(StringsOf(p)) ==> ParsePost(EncodePost(p), NO_POST) == None
  {
    PostRoundTrip(p);
    StringsAreTexts(p);
  }

  /** So whatever is written as the text of a post comes back, character for character. */
  lemma WrittenTextComesBack(p: Post, cs: seq<Scalar>, ds: seq<Scalar>)
    requires PostText(p) && PostKept(p) && PostSize(p.(text := Some(EncodeText(cs)))) <= MAX_LENGTH
    ensures var q := p.(text := Some(EncodeText(cs)));
      && ParsePost(EncodePost(q), NO_POST) == Some(q)
      && (q.text == Some(EncodeText(ds)) ==> ds == cs)
  {
    TextIsValid(cs);
    PostRoundTrip(p.(text := Some(EncodeText(cs))));
    if EncodeText(cs) == EncodeText(ds) { TextIsUnique(cs, ds); }
  }
}
