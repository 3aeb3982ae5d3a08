/** When the update of a campaign's document is refused, and that an accepted update never leads to a refusal. */
module DocumentLaws {
  import opened Search
  import opened MappingBlock
  import opened MappingLaws
  import opened Campaigns
  import opened Runner

  /** No end marker, or a start marker before the first one. */
  predicate Updatable(text: string) {
    Find(text, MAPPING_END) == -1 || 0 <= Find(text, MAPPING_START) < Find(text, MAPPING_END)
  }

  /** An update succeeds exactly on updatable texts, whatever is recorded. */
  lemma UpdateSucceedsIff(text: string, id: string, h: Hashes)
    ensures UpdateBlock(text, id, h).Ok? <==> Updatable(text)
  {
    hide Contains, Find, UpdateBlock;
    UpdateRefusedIff(text, id, h);
    FindFirst(text, MAPPING_START);
    FindFirst(text, MAPPING_END);
    MarkersDiffer(text, Find(text, MAPPING_START));
    FindBound(text, MAPPING_START);
    FindBound(text, MAPPING_END);
  }

  lemma EmptyUpdatable()
    ensures Updatable("")
  {
  }

  lemma EnsureTwice(text: string)
    ensures EnsureBlock(EnsureBlock(text)) == EnsureBlock(text)
  {
    hide Find, EnsureBlock, Contains;
    EnsuredMarkers(text);
    var content := EnsureBlock(text);
    FindFirst(content, MAPPING_START);
    FindFirst(content, MAPPING_END);
    EnsureKeeps(content);
  }

  /** Adding the block to a text does not change whether it can be updated. */
  lemma EnsuredUpdatableIff(text: string)
    ensures Updatable(EnsureBlock(text)) <==> Updatable(text)
  {
    hide Find, EnsureBlock, Updatable, Entries, Block;
    EnsureTwice(text);
    var h: Hashes := ("", "");
    assert UpdateBlock(EnsureBlock(text), "", h) == UpdateBlock(text, "", h);
    hide UpdateBlock;
    UpdateSucceedsIff(text, "", h);
    UpdateSucceedsIff(EnsureBlock(text), "", h);
  }

  /** Before the end of the first start marker an updated text is what it was, and no end marker begins there. */
  lemma PrefixUpdatable(content: string, start: nat, end: nat, tail: string)
    requires Find(content, MAPPING_START) == start && Find(content, MAPPING_END) == end && start < end
    requires start + |MAPPING_START| <= |content|
    ensures Updatable(content[..start + |MAPPING_START|] + tail)
  {
    hide OccursAt, Contains, Find, MAPPING_START, MAPPING_END;
    var prefix, rest := content[..start + |MAPPING_START|], content[start + |MAPPING_START|..];
    assert content == prefix + rest;
    FindFirst(content, MAPPING_START);
    FindFirst(content, MAPPING_END);
    OccursInLeft(prefix, rest, MAPPING_START, start);
    OneLonger();
    var text := prefix + tail;
    FindFirst(prefix, MAPPING_START);
    SomewhereIsContained(prefix, MAPPING_START, start);
    FindKept(prefix, tail, MAPPING_START);
    var first := Find(text, MAPPING_START);
    assert first <= start by {
      NotAfter(prefix, MAPPING_START, start);
    }
    FindFirst(text, MAPPING_END);
    var e := Find(text, MAPPING_END);
    if e != -1 && e < start {
      OccursInLeft(prefix, tail, MAPPING_END, e);
      OccursLonger(prefix, rest, MAPPING_END, e);
    }
    if e == start {
      NotBoth(prefix, tail, start);
    }
  }

  lemma OneLonger()
    ensures |MAPPING_END| == |MAPPING_START| + 1
  {
  }

  lemma SomewhereIsContained(text: string, p: string, i: int)
    requires OccursAt(text, p, i)
    ensures Contains(text, p)
  {
  }

  lemma NotAfter(text: string, p: string, i: int)
    requires OccursAt(text, p, i)
    ensures 0 <= Find(text, p) <= i
  {
    FindFirst(text, p);
  }

  lemma NotBoth(prefix: string, tail: string, i: nat)
    requires OccursAt(prefix, MAPPING_START, i)
    ensures !OccursAt(prefix + tail, MAPPING_END, i)
  {
    OccursLonger(prefix, tail, MAPPING_START, i);
    MarkersDiffer(prefix + tail, i);
  }

  /** What an update leaves can be updated again. */
  lemma UpdatedUpdatable(text: string, id: string, h: Hashes)
    requires UpdateBlock(text, id, h).Ok?
    ensures Updatable(UpdateBlock(text, id, h).value)
  {
    hide Find, EnsureBlock, Entries, Block, Updatable;
    var content := EnsureBlock(text);
    var start, end := Find(content, MAPPING_START), Find(content, MAPPING_END);
    MarkersApart(content);
    var from := start + |MAPPING_START|;
    var block := Block(Entries(content[from..end])[id := h]);
    PrefixUpdatable(content, start, end, block + content[end..]);
    assert content[..from] + block + content[end..] == content[..from] + (block + content[end..]);
  }

  // ---------------------------------------------------------------- the documents of the runner

  lemma SameName(x: Campaign, y: Campaign)
    requires x.slug == y.slug && x.date == y.date && x.seqNo == y.seqNo
    ensures DocName(x) == DocName(y)
  {
    hide DashesToUnderscores, UpperSnake;
  }

  /** The text the document of a campaign has, or will be written from. */
  function DocumentText(docs: Documents, c: Campaign): string {
    if DocName(c) in docs then docs[DocName(c)] else c.markdown
  }

  /** Once placed, a document can be recorded in exactly when its text can be updated. */
  lemma PlacedRecordsIff(docs: Documents, c: Campaign, t: string, sha: Sha)
    ensures Recorded(Placed(docs, c), c, t, sha).Some? <==> Updatable(DocumentText(docs, c))
  {
    hide DocName, UpdateBlock, EnsureBlock, Updatable, ShaText;
    var text := Placed(docs, c)[DocName(c)];
    UpdateSucceedsIff(text, t, (ShaText(sha), "SELF"));
    EnsuredUpdatableIff(c.markdown);
  }

  /** The document of the campaign is there and can be updated. */
  ghost predicate Ready(docs: Documents, c: Campaign) {
    DocName(c) in docs && Updatable(docs[DocName(c)])
  }

  /** Recording succeeds on a ready document and leaves it ready. */
  lemma RecordedReady(docs: Documents, c: Campaign, t: string, sha: Sha)
    requires Ready(docs, c)
    ensures Recorded(docs, c, t, sha).Some? && Ready(Recorded(docs, c, t, sha).value, c)
  {
    hide DocName, UpdateBlock, Updatable, ShaText;
    var text := docs[DocName(c)];
    UpdateSucceedsIff(text, t, (ShaText(sha), "SELF"));
    UpdatedUpdatable(text, t, (ShaText(sha), "SELF"));
  }

  lemma PlacedReady(docs: Documents, c: Campaign)
    requires Updatable(DocumentText(docs, c))
    ensures Ready(Placed(docs, c), c)
  {
    hide DocName, EnsureBlock, Updatable;
    EnsuredUpdatableIff(c.markdown);
  }
}
