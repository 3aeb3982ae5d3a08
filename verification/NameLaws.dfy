/** Which slugs lead to one file name: those with the same words between their underscores. */
module NameLaws {
  import opened Wrappers
  import opened Text
  import opened Paths
  import opened Tasks
  import opened Campaigns
  import opened Runner

  // ---------------------------------------------------------------- the words of a slug

  function NonEmpty(parts: seq<string>): (r: seq<string>)
    ensures forall p :: p in r <==> p in parts && p != ""
  {
    if parts == [] then [] else (if parts[0] == "" then [] else [parts[0]]) + NonEmpty(parts[1..])
  }

  /** The parts of a slug between its underscores. */
  function Words(slug: string): seq<string> { NonEmpty(Split(slug, '_')) }

  lemma WordsOfNothing()
    ensures Words("") == []
  {
    assert [""][1..] == [];
  }

  lemma WordsAfterUnderscore(rest: string)
    ensures Words("_" + rest) == Words(rest)
  {
    assert ("_" + rest)[1..] == rest;
    assert ([""] + Split(rest, '_'))[1..] == Split(rest, '_');
  }

  /** A letter before a word joins it; before an underscore or the end it is a word. */
  lemma WordsAfterLetter(c: char, rest: string)
    requires c != '_'
    ensures Words([c] + rest) == if rest == "" || rest[0] == '_' then [[c]] + Words(rest)
                                 else if Words(rest) == [] then []
                                 else [[c] + Words(rest)[0]] + Words(rest)[1..]
    ensures rest != "" && rest[0] != '_' ==> Words(rest) != []
  {
    hide NonEmpty;
    assert ([c] + rest)[1..] == rest;
    var parts := Split(rest, '_');
    var all := [[c] + parts[0]] + parts[1..];
    assert Split([c] + rest, '_') == all;
    NonEmptyStep(all);
    NonEmptyStep(parts);
    assert all[1..] == parts[1..];
    FirstPart(rest);
    if parts[0] == "" {
      assert [c] + parts[0] == [c];
      assert [] + NonEmpty(parts[1..]) == NonEmpty(parts[1..]);
    } else {
      var tail := NonEmpty(parts[1..]);
      assert ([parts[0]] + tail)[0] == parts[0] && ([parts[0]] + tail)[1..] == tail;
    }
  }

  lemma NonEmptyStep(parts: seq<string>)
    requires parts != []
    ensures NonEmpty(parts) == (if parts[0] == "" then [] else [parts[0]]) + NonEmpty(parts[1..])
  {
  }

  lemma FirstPart(s: string)
    ensures Split(s, '_')[0] == "" <==> s == "" || s[0] == '_'
  {
  }

  lemma JoinStep(first: string, rest: seq<string>)
    ensures Join([first] + rest, '_') == if rest == [] then first else first + "_" + Join(rest, '_')
  {
    assert ([first] + rest)[1..] == rest;
  }

  /** The slug with runs of underscores made single: one in front and one at the end may remain. */
  function Single(s: string, after: bool): string {
    var words := Words(s);
    if words == [] then if s == "" || after then "" else "_"
    else
      (if s != "" && s[0] == '_' && !after then "_" else "") + Join(words, '_')
      + (if s != "" && s[|s| - 1] == '_' then "_" else "")
  }

  predicate SlugText(s: string) { forall c :: c in s ==> IsLower(c) || IsDigit(c) || c == '_' }

  lemma {:induction false} UnderscoredIs(s: string, after: bool)
    requires SlugText(s)
    ensures Underscored(s, after) == Single(s, after)
    decreases |s|
  {
    hide Single;
    if s == "" {
      SingleNothing(after);
    } else {
      var c, rest := s[0], s[1..];
      assert s == [c] + rest;
      assert c in s && forall d :: d in rest ==> d in s;
      if c == '_' {
        UnderscoredIs(rest, true);
        SingleUnderscore(rest, after);
      } else {
        UnderscoredIs(rest, false);
        SingleLetter(c, rest, after);
      }
    }
  }

  lemma SingleNothing(after: bool)
    ensures Single("", after) == ""
  {
    WordsOfNothing();
  }

  lemma SingleUnderscore(rest: string, after: bool)
    ensures Single("_" + rest, after) == (if after then "" else "_") + Single(rest, true)
  {
    hide Words, Join;
    WordsAfterUnderscore(rest);
    WordsOfNothing();
    var s := "_" + rest;
    assert rest != "" ==> s[|s| - 1] == rest[|rest| - 1];
    if Words(rest) != [] {
      Grouped(if after then "" else "_", Join(Words(rest), '_'),
              if rest != "" && rest[|rest| - 1] == '_' then "_" else "");
    }
  }

  lemma Grouped(a: string, b: string, c: string)
    ensures a + b + c == a + ("" + b + c)
  {
  }

  lemma SingleLetter(c: char, rest: string, after: bool)
    requires c != '_'
    ensures Single([c] + rest, after) == [c] + Single(rest, false)
  {
    hide Words, Join;
    var s, tail := [c] + rest, Words(rest);
    assert s[0] == c && (rest != "" ==> s[|s| - 1] == rest[|rest| - 1]);
    WordsAfterLetter(c, rest);
    if rest == "" {
      WordsOfNothing();
      JoinStep([c], []);
    } else if rest[0] == '_' {
      JoinStep([c], tail);
      if tail == [] {
        AllUnderscores(rest);
      } else {
        Chained([c], Join(tail, '_'), if rest[|rest| - 1] == '_' then "_" else "");
      }
    } else {
      JoinStep(tail[0], tail[1..]);
      JoinStep([c] + tail[0], tail[1..]);
      LongerWord(c, tail, if rest[|rest| - 1] == '_' then "_" else "");
    }
  }

  lemma Chained(c: string, b: string, end: string)
    ensures "" + (c + "_" + b) + end == c + ("_" + b + end)
  {
  }

  lemma LongerWord(c: char, tail: seq<string>, end: string)
    requires tail != []
    ensures "" + Join([[c] + tail[0]] + tail[1..], '_') + end == [c] + ("" + Join(tail, '_') + end)
  {
    hide Join;
    assert tail == [tail[0]] + tail[1..];
    JoinStep(tail[0], tail[1..]);
    JoinStep([c] + tail[0], tail[1..]);
  }

  lemma {:induction false} AllUnderscores(s: string)
    requires Words(s) == [] && s != ""
    ensures s[|s| - 1] == '_'
    decreases |s|
  {
    hide Words;
    assert s == [s[0]] + s[1..];
    if s[0] == '_' {
      WordsAfterUnderscore(s[1..]);
      if s[1..] != "" {
        AllUnderscores(s[1..]);
      }
    } else {
      WordsAfterLetter(s[0], s[1..]);
    }
  }

  // ---------------------------------------------------------------- the names

  lemma WordsPlain(s: string)
    ensures forall w :: w in Words(s) ==> w != "" && '_' !in w && forall c :: c in w ==> c in s
  {
    SplitParts(s, '_');
  }

  lemma {:induction false} JoinEnds(words: seq<string>)
    requires words != [] && forall w :: w in words ==> w != "" && '_' !in w
    ensures var j := Join(words, '_'); j != "" && j[0] != '_' && j[|j| - 1] != '_'
  {
    assert words[0] in words && words[0][0] in words[0] && words[0][|words[0]| - 1] in words[0];
    if |words| > 1 {
      assert forall w :: w in words[1..] ==> w in words;
      JoinEnds(words[1..]);
    }
  }

  lemma TrimStill(j: string)
    requires j != "" && j[0] != '_' && j[|j| - 1] != '_'
    ensures TrimUnderscores(j) == j
  {
  }

  lemma TrimLast(j: string)
    requires j != "" && j[0] != '_'
    ensures TrimUnderscores(j + "_") == TrimUnderscores(j)
  {
    var s := j + "_";
    assert s[..|s| - 1] == j && s[0] == j[0];
  }

  lemma TrimFirst(s: string)
    ensures TrimUnderscores("_" + s) == TrimUnderscores(s)
  {
    assert ("_" + s)[1..] == s;
  }

  lemma TrimEnds(j: string, front: bool, end: bool)
    requires j != "" && j[0] != '_' && j[|j| - 1] != '_'
    ensures TrimUnderscores((if front then "_" else "") + j + (if end then "_" else "")) == j
  {
    hide TrimUnderscores;
    var rest := j + (if end then "_" else "");
    assert (if front then "_" else "") + j + (if end then "_" else "") == (if front then "_" else "") + rest;
    TrimStill(j);
    TrimLast(j);
    TrimFirst(rest);
    assert "" + rest == rest && j + "" == j;
  }

  /** What remains of a slug without the underscores at its ends. */
  lemma TrimmedIs(slug: string)
    requires SlugText(slug)
    ensures TrimUnderscores(Underscored(slug, false)) == Join(Words(slug), '_')
  {
    hide Words, TrimUnderscores, Join, Underscored;
    UnderscoredIs(slug, false);
    if Words(slug) == [] {
      TrimNothing();
      JoinNothing();
    } else {
      WordsPlain(slug);
      JoinEnds(Words(slug));
      TrimEnds(Join(Words(slug), '_'), slug != "" && slug[0] == '_', slug != "" && slug[|slug| - 1] == '_');
    }
  }

  lemma JoinNothing()
    ensures Join([], '_') == ""
  {
  }

  lemma TrimNothing()
    ensures TrimUnderscores("") == "" && TrimUnderscores("_") == ""
  {
    assert "_"[1..] == "";
  }

  lemma {:induction false} LowerSlug(s: string)
    requires SlugText(s)
    ensures ToLower(s) == s
  {
    if s != "" {
      assert s[0] in s && forall c :: c in s[1..] ==> c in s;
      LowerSlug(s[1..]);
      assert s == [s[0]] + s[1..];
    }
  }

  /** The file stem of a task: its slug's words, or "task" if it has none. */
  lemma LowerSnakeIs(slug: string)
    requires IsSlug(slug)
    ensures LowerSnake(slug) == if Words(slug) == [] then "task" else Join(Words(slug), '_')
  {
    hide Words, TrimUnderscores, Join, Underscored, Strip, ToLower;
    NamesTrimmed(slug);
    LowerSlug(slug);
    TrimmedIs(slug);
    if Words(slug) == [] {
      JoinNothing();
    } else {
      WordsPlain(slug);
      JoinEnds(Words(slug));
    }
  }

  /** The words of a document's name: the slug's in capitals, or "CAMPAIGN" if it has none. */
  lemma UpperSnakeIs(slug: string)
    requires IsSlug(slug)
    ensures UpperSnake(slug) == if Words(slug) == [] then "CAMPAIGN" else ToUpper(Join(Words(slug), '_'))
  {
    hide Words, TrimUnderscores, Join, Underscored, Strip, ToUpper;
    NamesTrimmed(slug);
    TrimmedIs(slug);
    UpperLength(Join(Words(slug), '_'));
    if Words(slug) == [] {
      JoinNothing();
    } else {
      WordsPlain(slug);
      JoinEnds(Words(slug));
    }
  }

  lemma UpperLength(s: string)
    ensures |ToUpper(s)| == |s|
  {
  }

  /** Two slugs that have the same words, or of which one has none and the other only the word taken instead. */
  ghost predicate SameWords(a: string, b: string, instead: string) {
    || Words(a) == Words(b)
    || (Words(a) == [] && Words(b) == [instead])
    || (Words(b) == [] && Words(a) == [instead])
  }

  lemma JoinedWords(a: string, b: string)
    requires Words(a) != [] && Words(b) != [] && Join(Words(a), '_') == Join(Words(b), '_')
    ensures Words(a) == Words(b)
  {
    hide Words, Join, Split;
    WordsPlain(a);
    WordsPlain(b);
    SplitJoin(Words(a), '_');
    SplitJoin(Words(b), '_');
  }

  lemma JoinedOne(a: string, word: string)
    requires Words(a) != [] && word != "" && '_' !in word
    ensures Join(Words(a), '_') == word <==> Words(a) == [word]
  {
    hide Words, Split;
    WordsPlain(a);
    if Join(Words(a), '_') == word {
      hide Join;
      SplitJoin(Words(a), '_');
      SplitWhole(word, '_');
    }
  }

  /** Valid slugs lead to one file stem exactly when their words are the same. */
  lemma SameStemIff(a: string, b: string)
    requires IsSlug(a) && IsSlug(b)
    ensures LowerSnake(a) == LowerSnake(b) <==> SameWords(a, b, "task")
  {
    hide Words, Join, LowerSnake;
    LowerSnakeIs(a);
    LowerSnakeIs(b);
    if Words(a) == [] {
      if Words(b) != [] {
        JoinedOne(b, "task");
      }
    } else if Words(b) == [] {
      JoinedOne(a, "task");
    } else if LowerSnake(a) == LowerSnake(b) {
      JoinedWords(a, b);
    }
  }

  /** Two tasks of a campaign would share a file exactly when their slugs have the same words. */
  lemma CollideIff(x: Campaign)
    requires forall t :: t in x.tasks ==> IsSlug(x.tasks[t].content.slug)
    ensures StemsCollide(x) <==> exists t, u :: t in x.tasks && u in x.tasks && t != u
                                  && SameWords(x.tasks[t].content.slug, x.tasks[u].content.slug, "task")
  {
    hide LowerSnake, SameWords, DashesToUnderscores;
    forall t, u | t in x.tasks && u in x.tasks
      ensures Stem(x, x.tasks[t].content.slug) == Stem(x, x.tasks[u].content.slug) <==>
              SameWords(x.tasks[t].content.slug, x.tasks[u].content.slug, "task")
    {
      SameStemIff(x.tasks[t].content.slug, x.tasks[u].content.slug);
      SameBefore(LowerSnake(x.tasks[t].content.slug), LowerSnake(x.tasks[u].content.slug), DashesToUnderscores(x.date));
    }
  }

  lemma SameBefore(a: string, b: string, date: string)
    ensures a + "_" + date == b + "_" + date <==> a == b
  {
    if a + "_" + date == b + "_" + date {
      var n := |a + "_" + date| - |date| - 1;
      assert a == (a + "_" + date)[..n] && b == (b + "_" + date)[..n];
    }
  }

  // ---------------------------------------------------------------- document names

  lemma {:induction false} UpperInjective(a: string, b: string)
    requires SlugText(a) && SlugText(b) && ToUpper(a) == ToUpper(b)
    ensures a == b
  {
    if a != "" {
      assert a[0] in a && b[0] in b && (forall c :: c in a[1..] ==> c in a) && forall c :: c in b[1..] ==> c in b;
      assert ToUpper(a)[1..] == ToUpper(a[1..]) && ToUpper(b)[1..] == ToUpper(b[1..]);
      UpperInjective(a[1..], b[1..]);
      assert a == [a[0]] + a[1..] && b == [b[0]] + b[1..];
    }
  }

  lemma {:induction false} JoinText(words: seq<string>)
    requires forall w :: w in words ==> SlugText(w)
    ensures SlugText(Join(words, '_'))
  {
    if words != [] {
      assert words[0] in words && forall w :: w in words[1..] ==> w in words;
      JoinText(words[1..]);
    }
  }

  /** Valid slugs lead to one document exactly when their words are the same. */
  lemma SameUpperIff(a: string, b: string)
    requires IsSlug(a) && IsSlug(b)
    ensures UpperSnake(a) == UpperSnake(b) <==> SameWords(a, b, "campaign")
  {
    hide Words, Join, UpperSnake, ToUpper, SlugText;
    UpperSnakeIs(a);
    UpperSnakeIs(b);
    InsteadUpper();
    JoinedText(a);
    JoinedText(b);
    if Words(a) == [] {
      if Words(b) != [] {
        JoinedOne(b, "campaign");
        if UpperSnake(a) == UpperSnake(b) {
          UpperInjective("campaign", Join(Words(b), '_'));
        }
      }
    } else if Words(b) == [] {
      JoinedOne(a, "campaign");
      if UpperSnake(a) == UpperSnake(b) {
        UpperInjective("campaign", Join(Words(a), '_'));
      }
    } else if UpperSnake(a) == UpperSnake(b) {
      UpperInjective(Join(Words(a), '_'), Join(Words(b), '_'));
      JoinedWords(a, b);
    }
  }

  lemma {:induction false} UpperAt(s: string)
    ensures forall i :: 0 <= i < |s| ==> ToUpper(s)[i] == ToUpperChar(s[i])
  {
    if s != "" {
      UpperAt(s[1..]);
    }
  }

  lemma InsteadUpper()
    ensures ToUpper("campaign") == "CAMPAIGN" && SlugText("campaign")
  {
    hide ToUpper;
    var name: string := "campaign";
    UpperAt(name);
    forall i | 0 <= i < |name|
      ensures ToUpper(name)[i] == "CAMPAIGN"[i]
    {
    }
  }

  lemma JoinedText(slug: string)
    requires IsSlug(slug)
    ensures SlugText(Join(Words(slug), '_'))
  {
    hide Words, Join;
    WordsPlain(slug);
    forall w | w in Words(slug)
      ensures SlugText(w)
    {
    }
    JoinText(Words(slug));
  }

  lemma {:induction false} DashesLength(s: string)
    ensures |DashesToUnderscores(s)| == |s|
    ensures forall i :: 0 <= i < |s| ==> DashesToUnderscores(s)[i] == if s[i] == '-' then '_' else s[i]
  {
    if s != "" {
      DashesLength(s[1..]);
    }
  }

  lemma SameDates(a: string, b: string)
    requires IsDate(a) && IsDate(b) && DashesToUnderscores(a) == DashesToUnderscores(b)
    ensures a == b
  {
    DashesLength(a);
    DashesLength(b);
    var d := DashesToUnderscores(a);
    DateChars(a);
    DateChars(b);
    forall i | 0 <= i < 10
      ensures a[i] == b[i]
    {
      assert d[i] == (if a[i] == '-' then '_' else a[i]) && d[i] == (if b[i] == '-' then '_' else b[i]);
    }
  }

  lemma DateChars(a: string)
    requires IsDate(a)
    ensures forall i :: 0 <= i < 10 ==> a[i] == '-' || IsDigit(a[i])
  {
    forall i | 0 <= i < 10
      ensures a[i] == '-' || IsDigit(a[i])
    {
      if i < 4 {
        assert a[i] == a[..4][i] && a[..4][i] in a[..4];
      } else if 5 <= i < 7 {
        assert a[i] == a[5..7][i - 5] && a[5..7][i - 5] in a[5..7];
      } else if 8 <= i {
        assert a[i] == a[8..][i - 8] && a[8..][i - 8] in a[8..];
      }
    }
  }

  lemma NameParts(a: string, b: string, d: string, e: string, u: string, v: string, m: string, n: string)
    requires |d| == |e| && |m| == |n|
    ensures a + d + "_" + u + "_" + m + b == a + e + "_" + v + "_" + n + b <==> d == e && u == v && m == n
  {
    var s, t := a + d + "_" + u + "_" + m + b, a + e + "_" + v + "_" + n + b;
    if s == t {
      assert |u| == |v|;
      assert d == s[|a|..|a| + |d|] && e == t[|a|..|a| + |e|];
      var from := |a| + |d| + 1;
      assert u == s[from..from + |u|] && v == t[from..from + |v|];
      var next := from + |u| + 1;
      assert m == s[next..next + |m|] && n == t[next..next + |n|];
    }
  }

  /** Two campaigns have one document exactly when date, number and the words of their slugs are the same. */
  lemma SameDocumentIff(x: Campaign, y: Campaign)
    requires ValidCampaignId(CampaignId(x.date, x.slug, x.seqNo))
             && ValidCampaignId(CampaignId(y.date, y.slug, y.seqNo))
    ensures DocName(x) == DocName(y)
            <==> x.date == y.date && x.seqNo == y.seqNo && SameWords(x.slug, y.slug, "campaign")
  {
    hide UpperSnake, SameWords, DashesToUnderscores, IsSlug;
    DashesLength(x.date);
    DashesLength(y.date);
    NameParts("CAMPAIGN_", ".md", DashesToUnderscores(x.date), DashesToUnderscores(y.date),
              UpperSnake(x.slug), UpperSnake(y.slug), x.seqNo, y.seqNo);
    SameUpperIff(x.slug, y.slug);
    if DashesToUnderscores(x.date) == DashesToUnderscores(y.date) {
      SameDates(x.date, y.date);
    }
  }

  /** The names, from the words between the underscores of the slug. */
  lemma NamesSpelled(x: Campaign, slug: string)
    requires IsSlug(x.slug) && IsSlug(slug)
    ensures var date := DashesToUnderscores(x.date);
            && DocName(x) == "CAMPAIGN_" + date + "_"
               + (if Words(x.slug) == [] then "CAMPAIGN" else ToUpper(Join(Words(x.slug), '_'))) + "_" + x.seqNo + ".md"
            && Stem(x, slug) == (if Words(slug) == [] then "task" else Join(Words(slug), '_')) + "_" + date
  {
    hide UpperSnake, LowerSnake, IsSlug, Words, Join, ToUpper, DashesToUnderscores;
    UpperSnakeIs(x.slug);
    LowerSnakeIs(slug);
  }

  /**
   Materialising fails exactly when two tasks would share a file; otherwise every task has its file and the document
   its name on record, files of tasks that are gone stay there, and nothing else of the campaign changes.
   */
  lemma MaterializesAs(x: Campaign)
    ensures Materialize(x).None? <==> StemsCollide(x)
    ensures Materialize(x).Some? ==>
              var y := Materialize(x).value;
              && y == x.(materialized := y.materialized) && y.materialized.docPath == Some(DocName(x))
              && y.materialized.taskStems.Keys == x.materialized.taskStems.Keys + x.tasks.Keys
              && (forall t :: t in x.tasks ==>
                    y.materialized.taskStems[t] ==
                      LowerSnake(x.tasks[t].content.slug) + "_" + DashesToUnderscores(x.date))
              && (forall t :: t in x.materialized.taskStems && t !in x.tasks ==>
                    y.materialized.taskStems[t] == x.materialized.taskStems[t])
  {
    hide DocName, LowerSnake, DashesToUnderscores, StemsCollide;
  }
}
