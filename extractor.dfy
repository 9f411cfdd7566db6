/** The content fetch of main.py:20-129: from the parsed activity document,
    six texts are pulled out for the predefined variables. Downloading and
    parsing are not modelled; their outcome is the `response` input, `None`
    standing for a request, HTTP or JSON error. */
module Extractor {
  import opened Wrappers
  import opened Text
  import opened JsonValues
  import opened Variables

  /** The six values the fetch produces, one per predefined variable
      (the locals of main.py:40-45). */
  datatype Fetched = Fetched(
    taskInstruction: string,
    vocabularyList: string,
    grammarReference: string,
    communicationReference: string,
    guidingQuestions: string,
    canDoStatements: string)

  /** The reset of main.py:26: every value `""`. */
  const NothingFetched := Fetched("", "", "", "", "", "")

  /** The session dictionary holding the values, keyed by variable name
      (main.py:104-109). */
  function SessionValues(f: Fetched): (r: map<string, string>)
    ensures forall k :: k in r <==> k in Predefined
  {
    map[
      "task_instruction" := f.taskInstruction,
      "vocabulary_list" := f.vocabularyList,
      "grammar_reference" := f.grammarReference,
      "communication_reference" := f.communicationReference,
      "guiding_questions" := f.guidingQuestions,
      "can_do_statements" := f.canDoStatements
    ]
  }

  /** Each variable's entry in the dictionary is its own value. */
  lemma {:induction false} SessionLookup(f: Fetched)
    ensures var r := SessionValues(f);
      r["task_instruction"] == f.taskInstruction && r["vocabulary_list"] == f.vocabularyList
      && r["grammar_reference"] == f.grammarReference && r["communication_reference"] == f.communicationReference
      && r["guiding_questions"] == f.guidingQuestions && r["can_do_statements"] == f.canDoStatements
  {
    SameLengthNamesDiffer();
  }

  /** After the reset every predefined variable is bound to `""`. */
  lemma ResetIsEmpty()
    ensures forall k :: k in SessionValues(NothingFetched) ==> SessionValues(NothingFetched)[k] == ""
  {
  }

  /** `f"- {s}"` for every text, in order. */
  function Bulleted(items: seq<string>): (r: seq<string>)
    ensures |r| == |items|
    ensures forall i :: 0 <= i < |items| ==> r[i] == "- " + items[i]
  {
    if |items| == 0 then [] else ["- " + items[0]] + Bulleted(items[1..])
  }

  /** `"\n".join(f"- {s}" for s in items)`. */
  function BulletList(items: seq<string>): string
  {
    Join(Bulleted(items), "\n")
  }

  // ---- interactions: task_instruction and can_do_statements (main.py:47-61)

  /** The first element of `interactions`, when that is a non-empty list whose
      first element is an object; later interactions are never looked at. */
  function FirstInteraction(doc: map<string, Json>): Option<map<string, Json>>
  {
    var interactions := Get(doc, "interactions", JArr([]));
    if Truthy(interactions) && interactions.JArr? && |interactions.items| > 0 && interactions.items[0].JObj?
    then Some(interactions.items[0].fields)
    else None
  }

  /** A can-do entry is kept when it is an object with a truthy `statement`. */
  predicate HasStatement(entry: Json)
  {
    entry.JObj? && Truthy(Get(entry.fields, "statement", JNull))
  }

  /** `stmt.get('statement', '')` of an object entry, as text. */
  function StatementOf(entry: Json): string
  {
    if entry.JObj? then PyStr(Get(entry.fields, "statement", JStr(""))) else ""
  }

  /** The statements of the kept entries, in order. */
  function Statements(entries: seq<Json>): (r: seq<string>)
    ensures |r| <= |entries|
    ensures (forall i :: 0 <= i < |entries| ==> !HasStatement(entries[i])) ==> r == []
    ensures (forall i :: 0 <= i < |entries| ==> HasStatement(entries[i])) ==>
      |r| == |entries| && forall i :: 0 <= i < |entries| ==> r[i] == StatementOf(entries[i])
  {
    if |entries| == 0 then []
    else
      var entry := entries[|entries| - 1];
      Statements(entries[..|entries| - 1])
      + (if HasStatement(entry) then [StatementOf(entry)] else [])
  }

  function TaskInstruction(doc: map<string, Json>): string
  {
    match FirstInteraction(doc)
    case None => ""
    case Some(first) => PyStr(Get(first, "instruction", JStr("")))
  }

  function CanDoStatements(doc: map<string, Json>): string
  {
    match FirstInteraction(doc)
    case None => ""
    case Some(first) =>
      var entries := Get(first, "canDoStatement", JArr([]));
      if entries.JArr? then BulletList(Statements(entries.items)) else ""
  }

  // ---- referenceScreens: vocabulary, grammar and communication (main.py:64-83)

  /** `doc.get(key, [])` when that is a list; anything else yields nothing. */
  function ListAt(doc: map<string, Json>, key: string): seq<Json>
  {
    var v := Get(doc, key, JArr([]));
    if v.JArr? then v.items else []
  }

  /** A screen counts for `category` when it is an object whose `contents` is
      an object and whose `category` is exactly that string. */
  predicate IsReference(screen: Json, category: string)
  {
    screen.JObj? && Get(screen.fields, "contents", JNull).JObj?
    && Get(screen.fields, "category", JNull) == JStr(category)
  }

  function ContentsOf(screen: Json, category: string): map<string, Json>
    requires IsReference(screen, category)
  {
    Get(screen.fields, "contents", JNull).fields
  }

  /** `[str(item) for item in items if item]`. */
  function TruthyTexts(items: seq<Json>): (r: seq<string>)
    ensures |r| <= |items|
    ensures (forall i :: 0 <= i < |items| ==> !Truthy(items[i])) ==> r == []
    ensures (forall i :: 0 <= i < |items| ==> Truthy(items[i])) ==>
      |r| == |items| && forall i :: 0 <= i < |items| ==> r[i] == PyStr(items[i])
  {
    if |items| == 0 then []
    else
      var item := items[|items| - 1];
      TruthyTexts(items[..|items| - 1]) + (if Truthy(item) then [PyStr(item)] else [])
  }

  /** The vocabulary items one screen contributes. */
  function ScreenVocabulary(screen: Json): seq<string>
  {
    if IsReference(screen, "vocabulary") then
      var list := Get(ContentsOf(screen, "vocabulary"), "vocabularyList", JArr([]));
      if list.JArr? then TruthyTexts(list.items) else []
    else []
  }

  /** What `per` gives for each screen, concatenated in screen order: the
      shape of both gathering loops (main.py:67-73 and main.py:88-97). */
  function Gather(screens: seq<Json>, per: Json -> seq<string>): seq<string>
  {
    if |screens| == 0 then []
    else Gather(screens[..|screens| - 1], per) + per(screens[|screens| - 1])
  }

  /** The vocabulary items of all screens, in screen order. */
  function VocabularyItems(screens: seq<Json>): seq<string>
  {
    Gather(screens, ScreenVocabulary)
  }

  /** The `reference` of the last screen of `category` (`''` when that screen
      has none), or `''` when there is no such screen: each later screen
      overwrites the earlier value. */
  function LastReference(screens: seq<Json>, category: string): Json
  {
    if |screens| == 0 then JStr("")
    else if IsReference(screens[|screens| - 1], category) then
      Get(ContentsOf(screens[|screens| - 1], category), "reference", JStr(""))
    else LastReference(screens[..|screens| - 1], category)
  }

  // ---- secondaryScreens: guiding_questions (main.py:86-101)

  /** A content item asks a question when it is an object with a truthy
      `secondaryContent`. */
  predicate HasQuestion(item: Json)
  {
    item.JObj? && Truthy(Get(item.fields, "secondaryContent", JNull))
  }

  /** `str(item.get('secondaryContent'))` of an object item. */
  function QuestionOf(item: Json): string
  {
    if item.JObj? then PyStr(Get(item.fields, "secondaryContent", JNull)) else ""
  }

  /** The `secondaryContent` of each item that asks a question, as text, in order. */
  function ItemQuestions(items: seq<Json>): (r: seq<string>)
    ensures |r| <= |items|
    ensures (forall i :: 0 <= i < |items| ==> !HasQuestion(items[i])) ==> r == []
    ensures (forall i :: 0 <= i < |items| ==> HasQuestion(items[i])) ==>
      |r| == |items| && forall i :: 0 <= i < |items| ==> r[i] == QuestionOf(items[i])
  {
    if |items| == 0 then []
    else
      var item := items[|items| - 1];
      ItemQuestions(items[..|items| - 1])
      + (if HasQuestion(item) then [QuestionOf(item)] else [])
  }

  /** The questions one screen contributes: those of its `contents` list. */
  function ScreenQuestions(screen: Json): seq<string>
  {
    if screen.JObj? then
      var contents := Get(screen.fields, "contents", JArr([]));
      if contents.JArr? then ItemQuestions(contents.items) else []
    else []
  }

  /** The questions of all screens, in screen order. */
  function GuidingQuestions(screens: seq<Json>): seq<string>
  {
    Gather(screens, ScreenQuestions)
  }

  // ---- the six values

  /** The values a successfully parsed object document yields. */
  function ExtractFields(doc: map<string, Json>): Fetched
  {
    var references := ListAt(doc, "referenceScreens");
    Fetched(
      TaskInstruction(doc),
      Join(VocabularyItems(references), ", "),
      PyStr(LastReference(references, "grammar")),
      PyStr(LastReference(references, "communication")),
      BulletList(GuidingQuestions(ListAt(doc, "secondaryScreens"))),
      CanDoStatements(doc))
  }

  /** The values after a fetch whose outcome is `response`. A failed fetch, or
      a document that is not an object (whose `.get` raises), leaves the reset
      values in place. */
  function Extract(response: Option<Json>): (r: Fetched)
    ensures response.None? || !response.value.JObj? ==> r == NothingFetched
  {
    if response.Some? && response.value.JObj? then ExtractFields(response.value.fields)
    else NothingFetched
  }

  /** The whole action: with no URL nothing is fetched and every value is
      `""`; otherwise the values come from the fetch's outcome. */
  function FetchAndPopulate(url: string, response: Option<Json>): (r: Fetched)
    ensures url == "" ==> r == NothingFetched
  {
    if url == "" then NothingFetched else Extract(response)
  }

  // ---- properties of the extraction

  /** One more screen adds its own contribution at the end. */
  lemma {:induction false} GatherSnoc(s: seq<Json>, x: Json, per: Json -> seq<string>)
    ensures Gather(s + [x], per) == Gather(s, per) + per(x)
  {
    assert (s + [x])[..|s|] == s;
  }

  /** Gathering distributes over consecutive runs of screens. */
  lemma {:induction false} GatherAcross(a: seq<Json>, b: seq<Json>, per: Json -> seq<string>)
    ensures Gather(a + b, per) == Gather(a, per) + Gather(b, per)
    decreases |b|
  {
    if |b| == 0 {
      assert a + b == a;
    } else {
      var b' := b[..|b| - 1];
      assert (a + b)[..|a + b| - 1] == a + b';
      assert (a + b)[|a + b| - 1] == b[|b| - 1];
      GatherAcross(a, b', per);
    }
  }

  /** Vocabulary gathering distributes over consecutive runs of screens. */
  lemma VocabularyAcross(a: seq<Json>, b: seq<Json>)
    ensures VocabularyItems(a + b) == VocabularyItems(a) + VocabularyItems(b)
  {
    GatherAcross(a, b, ScreenVocabulary);
  }

  /** Question gathering distributes over consecutive runs of screens. */
  lemma GuidingAcross(a: seq<Json>, b: seq<Json>)
    ensures GuidingQuestions(a + b) == GuidingQuestions(a) + GuidingQuestions(b)
  {
    GatherAcross(a, b, ScreenQuestions);
  }

  /** Filtering the can-do entries distributes over consecutive runs of
      entries; with the one-entry cases of the contract of `Statements`, this
      fixes its result on every list. */
  lemma {:induction false} StatementsAppend(a: seq<Json>, b: seq<Json>)
    ensures Statements(a + b) == Statements(a) + Statements(b)
    decreases |b|
  {
    if |b| == 0 {
      assert a + b == a;
    } else {
      var b' := b[..|b| - 1];
      assert (a + b)[..|a + b| - 1] == a + b';
      assert (a + b)[|a + b| - 1] == b[|b| - 1];
      StatementsAppend(a, b');
    }
  }

  /** Filtering the vocabulary list distributes over consecutive runs of items. */
  lemma {:induction false} TruthyTextsAppend(a: seq<Json>, b: seq<Json>)
    ensures TruthyTexts(a + b) == TruthyTexts(a) + TruthyTexts(b)
    decreases |b|
  {
    if |b| == 0 {
      assert a + b == a;
    } else {
      var b' := b[..|b| - 1];
      assert (a + b)[..|a + b| - 1] == a + b';
      assert (a + b)[|a + b| - 1] == b[|b| - 1];
      TruthyTextsAppend(a, b');
    }
  }

  /** Filtering the content items distributes over consecutive runs of items. */
  lemma {:induction false} ItemQuestionsAppend(a: seq<Json>, b: seq<Json>)
    ensures ItemQuestions(a + b) == ItemQuestions(a) + ItemQuestions(b)
    decreases |b|
  {
    if |b| == 0 {
      assert a + b == a;
    } else {
      var b' := b[..|b| - 1];
      assert (a + b)[..|a + b| - 1] == a + b';
      assert (a + b)[|a + b| - 1] == b[|b| - 1];
      ItemQuestionsAppend(a, b');
    }
  }

  /** A kept entry followed by a dropped one gives the kept statement alone. */
  lemma StatementsMixed()
    ensures Statements([JObj(map["statement" := JStr("A")]), JNull]) == ["A"]
  {
    var kept := JObj(map["statement" := JStr("A")]);
    StatementsAppend([kept], [JNull]);
    assert [kept] + [JNull] == [kept, JNull];
  }

  /** Last wins: the reference kept is that of the last screen of its category. */
  lemma {:induction false} LastReferenceWins(screens: seq<Json>, category: string, i: nat)
    requires i < |screens| && IsReference(screens[i], category)
    requires forall j :: i < j < |screens| ==> !IsReference(screens[j], category)
    ensures LastReference(screens, category) == Get(ContentsOf(screens[i], category), "reference", JStr(""))
    decreases |screens|
  {
    if i < |screens| - 1 {
      var init := screens[..|screens| - 1];
      assert forall j :: i < j < |init| ==> init[j] == screens[j];
      LastReferenceWins(init, category, i);
    }
  }

  /** With no screen of the category the reference stays `''`. */
  lemma {:induction false} LastReferenceDefault(screens: seq<Json>, category: string)
    requires forall j :: 0 <= j < |screens| ==> !IsReference(screens[j], category)
    ensures LastReference(screens, category) == JStr("")
    decreases |screens|
  {
    if |screens| > 0 {
      var init := screens[..|screens| - 1];
      assert forall j :: 0 <= j < |init| ==> init[j] == screens[j];
      LastReferenceDefault(init, category);
    }
  }

  /** Only the first interaction is read: whatever follows it in the list
      does not affect task_instruction or can_do_statements. */
  lemma {:induction false} FirstInteractionOnly(doc: map<string, Json>, first: map<string, Json>, rest: seq<Json>)
    requires Get(doc, "interactions", JArr([])) == JArr([JObj(first)] + rest)
    ensures TaskInstruction(doc) == PyStr(Get(first, "instruction", JStr("")))
    ensures CanDoStatements(doc) == CanDoStatements(map["interactions" := JArr([JObj(first)])])
  {
  }

  /** When `interactions` is missing, empty or not a list, or its first
      element is not an object, task_instruction and can_do_statements are
      `""`. A missing key reads as the empty list. */
  lemma {:induction false} MissingInteractions(doc: map<string, Json>)
    requires var v := Get(doc, "interactions", JArr([])); !v.JArr? || v.items == [] || !v.items[0].JObj?
    ensures ExtractFields(doc).taskInstruction == "" && ExtractFields(doc).canDoStatements == ""
  {
  }

  /** `interactions` feeds only task_instruction and can_do_statements: the
      other four values do not depend on it. */
  lemma {:induction false} InteractionsIsolated(doc: map<string, Json>, v: Json)
    ensures var a, b := ExtractFields(doc), ExtractFields(doc["interactions" := v]);
      a.vocabularyList == b.vocabularyList && a.grammarReference == b.grammarReference
      && a.communicationReference == b.communicationReference && a.guidingQuestions == b.guidingQuestions
  {
    var d := doc["interactions" := v];
    assert ListAt(d, "referenceScreens") == ListAt(doc, "referenceScreens");
    assert ListAt(d, "secondaryScreens") == ListAt(doc, "secondaryScreens");
  }

  /** A document with one reference screen lists that screen's vocabulary. */
  lemma {:induction false} SingleReferenceScreen(screen: Json)
    ensures Extract(Some(JObj(map["referenceScreens" := JArr([screen])]))).vocabularyList
      == Join(ScreenVocabulary(screen), ", ")
  {
    GatherSnoc([], screen, ScreenVocabulary);
    assert [] + [screen] == [screen];
    assert Gather([], ScreenVocabulary) + ScreenVocabulary(screen) == ScreenVocabulary(screen);
    assert ListAt(map["referenceScreens" := JArr([screen])], "referenceScreens") == [screen];
  }

  /** One vocabulary screen with the list `["cat", null, "dog"]` gives `cat, dog`. */
  lemma VocabularyExample()
    ensures var screen := JObj(map["category" := JStr("vocabulary"),
                                   "contents" := JObj(map["vocabularyList" := JArr([JStr("cat"), JNull, JStr("dog")])])]);
      Extract(Some(JObj(map["referenceScreens" := JArr([screen])]))).vocabularyList == "cat" + ", " + "dog"
  {
    var list := [JStr("cat"), JNull, JStr("dog")];
    var screen := JObj(map["category" := JStr("vocabulary"), "contents" := JObj(map["vocabularyList" := JArr(list)])]);
    assert list[1..] == [JNull, JStr("dog")] && list[1..][1..] == [JStr("dog")] && list[1..][1..][1..] == [];
    assert TruthyTexts(list) == ["cat", "dog"];
    assert IsReference(screen, "vocabulary");
    assert ScreenVocabulary(screen) == ["cat", "dog"];
    SingleReferenceScreen(screen);
    JoinSnoc(["cat"], "dog", ", ");
    assert ["cat"] + ["dog"] == ["cat", "dog"];
  }

  /** Of two grammar screens, the later one's reference is kept. */
  lemma GrammarExample()
    ensures var g1 := JObj(map["category" := JStr("grammar"), "contents" := JObj(map["reference" := JStr("A")])]);
            var g2 := JObj(map["category" := JStr("grammar"), "contents" := JObj(map["reference" := JStr("B")])]);
      Extract(Some(JObj(map["referenceScreens" := JArr([g1, g2])]))).grammarReference == "B"
  {
    var g1 := JObj(map["category" := JStr("grammar"), "contents" := JObj(map["reference" := JStr("A")])]);
    var g2 := JObj(map["category" := JStr("grammar"), "contents" := JObj(map["reference" := JStr("B")])]);
    assert IsReference(g2, "grammar");
    LastReferenceWins([g1, g2], "grammar", 1);
  }

  /** A document with one secondary screen lists that screen's questions. */
  lemma {:induction false} SingleSecondaryScreen(screen: Json)
    ensures Extract(Some(JObj(map["secondaryScreens" := JArr([screen])]))).guidingQuestions
      == BulletList(ScreenQuestions(screen))
  {
    GatherSnoc([], screen, ScreenQuestions);
    assert [] + [screen] == [screen];
    assert Gather([], ScreenQuestions) + ScreenQuestions(screen) == ScreenQuestions(screen);
    assert ListAt(map["secondaryScreens" := JArr([screen])], "secondaryScreens") == [screen];
  }

  /** Two texts as a bullet list. */
  lemma {:induction false} BulletPair(a: string, b: string)
    ensures BulletList([a, b]) == "- " + a + "\n" + "- " + b
  {
    var bullets := Bulleted([a, b]);
    assert bullets == ["- " + a, "- " + b];
    assert bullets[1..] == ["- " + b];
    assert Join(bullets, "\n") == bullets[0] + "\n" + Join(bullets[1..], "\n");
  }

  /** Items whose `secondaryContent` is truthy give their questions in order. */
  lemma {:induction false} QuestionsOfThree(q1: Json, q2: Json, q3: Json)
    requires q1.JObj? && q2.JObj? && q3.JObj?
    requires Truthy(Get(q1.fields, "secondaryContent", JNull)) && !Truthy(Get(q2.fields, "secondaryContent", JNull))
    requires Truthy(Get(q3.fields, "secondaryContent", JNull))
    ensures ItemQuestions([q1, q2, q3])
      == [PyStr(Get(q1.fields, "secondaryContent", JNull)), PyStr(Get(q3.fields, "secondaryContent", JNull))]
  {
    assert [q1, q2, q3][..2] == [q1, q2] && [q1, q2][..1] == [q1] && [q1][..0] == [];
    var a1, a3 := PyStr(Get(q1.fields, "secondaryContent", JNull)), PyStr(Get(q3.fields, "secondaryContent", JNull));
    assert ItemQuestions([q1]) == [] + [a1];
    assert ItemQuestions([q1, q2]) == [a1] + [];
    assert ItemQuestions([q1, q2, q3]) == [a1] + [a3];
  }

  /** Truthy questions become bullet lines; an empty one is dropped. */
  lemma GuidingExample()
    ensures var screen := JObj(map["contents" := JArr([JObj(map["secondaryContent" := JStr("Why?")]),
                                                      JObj(map["secondaryContent" := JStr("")]),
                                                      JObj(map["secondaryContent" := JStr("How?")])])]);
      Extract(Some(JObj(map["secondaryScreens" := JArr([screen])]))).guidingQuestions
        == "- " + "Why?" + "\n" + "- " + "How?"
  {
    var q1, q2, q3 := JObj(map["secondaryContent" := JStr("Why?")]), JObj(map["secondaryContent" := JStr("")]),
                      JObj(map["secondaryContent" := JStr("How?")]);
    QuestionsOfThree(q1, q2, q3);
    var screen := JObj(map["contents" := JArr([q1, q2, q3])]);
    assert ScreenQuestions(screen) == ["Why?", "How?"];
    SingleSecondaryScreen(screen);
    BulletPair("Why?", "How?");
  }

  /** main.py:64-83: one pass over the reference screens gathers the
      vocabulary and keeps the latest grammar and communication references. */
  method ReadReferences(screens: seq<Json>) returns (items: seq<string>, grammar: Json, communication: Json)
    ensures items == VocabularyItems(screens)
    ensures grammar == LastReference(screens, "grammar")
    ensures communication == LastReference(screens, "communication")
  {
    items, grammar, communication := [], JStr(""), JStr("");
    for i := 0 to |screens|
      invariant items == VocabularyItems(screens[..i])
      invariant grammar == LastReference(screens[..i], "grammar")
      invariant communication == LastReference(screens[..i], "communication")
    {
      var screen := screens[i];
      assert screens[..i + 1][..i] == screens[..i];
      if screen.JObj? {
        var category := Get(screen.fields, "category", JNull);
        var contents := Get(screen.fields, "contents", JNull);
        if contents.JObj? {
          if category == JStr("vocabulary") {
            var list := Get(contents.fields, "vocabularyList", JArr([]));
            if list.JArr? {
              items := items + TruthyTexts(list.items);
            }
          } else if category == JStr("grammar") {
            grammar := Get(contents.fields, "reference", JStr(""));
          } else if category == JStr("communication") {
            communication := Get(contents.fields, "reference", JStr(""));
          }
        }
      }
    }
    assert screens[..|screens|] == screens;
  }

  /** main.py:91-97: the questions of one screen's content items, appended. */
  method AppendItemQuestions(questions: seq<string>, contentList: seq<Json>) returns (result: seq<string>)
    ensures result == questions + ItemQuestions(contentList)
  {
    result := questions;
    for j := 0 to |contentList|
      invariant result == questions + ItemQuestions(contentList[..j])
    {
      var item := contentList[j];
      assert contentList[..j + 1][..j] == contentList[..j];
      if item.JObj? {
        var question := Get(item.fields, "secondaryContent", JNull);
        if Truthy(question) {
          result := result + [PyStr(question)];
        }
      }
    }
    assert contentList[..|contentList|] == contentList;
  }

  /** main.py:86-99: the questions of all secondary screens, in order. */
  method ReadQuestions(screens: seq<Json>) returns (questions: seq<string>)
    ensures questions == GuidingQuestions(screens)
  {
    questions := [];
    for i := 0 to |screens|
      invariant questions == GuidingQuestions(screens[..i])
    {
      var screen := screens[i];
      assert screens[..i + 1][..i] == screens[..i];
      if screen.JObj? {
        var contentItems := Get(screen.fields, "contents", JArr([]));
        if contentItems.JArr? {
          questions := AppendItemQuestions(questions, contentItems.items);
        }
      }
    }
    assert screens[..|screens|] == screens;
  }

  /** The action as the program runs it: reset, examine the document section
      by section, then set the six values. The flag is its return value. */
  method PopulateVariables(url: string, response: Option<Json>) returns (values: Fetched, ok: bool)
    ensures values == FetchAndPopulate(url, response)
    ensures ok <==> url != "" && response.Some? && response.value.JObj?
  {
    values := NothingFetched;
    ok := false;
    if url == "" || response.None? || !response.value.JObj? {
      return;
    }
    var doc := response.value.fields;
    var taskInstruction, canDo := TaskInstruction(doc), CanDoStatements(doc);

    var vocabulary := "";
    var grammar, communication := JStr(""), JStr("");
    var references := Get(doc, "referenceScreens", JArr([]));
    if references.JArr? {
      var items;
      items, grammar, communication := ReadReferences(references.items);
      if |items| > 0 {
        vocabulary := Join(items, ", ");
      }
    }

    var guiding := "";
    var secondary := Get(doc, "secondaryScreens", JArr([]));
    if secondary.JArr? {
      var questions := ReadQuestions(secondary.items);
      if |questions| > 0 {
        guiding := BulletList(questions);
      }
    }

    values := Fetched(taskInstruction, vocabulary, PyStr(grammar), PyStr(communication), guiding, canDo);
    ok := true;
  }

  /** The session dictionary `fetched_variable_values`, which the fetch
      action resets and then overwrites in place. */
  class Session {
    var values: map<string, string>

    /** The dictionary a session starts with (main.py:282-283). */
    constructor ()
      ensures values == SessionValues(NothingFetched)
    {
      values := SessionValues(NothingFetched);
    }

    /** `fetch_and_populate_variables_action` (main.py:20-129): reset the
        dictionary, give up on an empty URL, and otherwise store the six
        extracted values, or on a failed fetch only make sure every
        predefined name is bound. */
    method FetchAction(url: string, response: Option<Json>) returns (ok: bool)
      modifies this
      ensures values == SessionValues(FetchAndPopulate(url, response))
      ensures ok <==> url != "" && response.Some? && response.value.JObj?
    {
      values := SessionValues(NothingFetched);
      if url == "" {
        return false;
      }
      var fetched;
      fetched, ok := PopulateVariables(url, response);
      if ok {
        values := SessionValues(fetched);
      } else {
        FillMissing();
      }
    }

    /** The repair loop of main.py:124-128: every predefined name missing
        from the dictionary is bound to `""`; entries already there stay. */
    method FillMissing()
      modifies this
      ensures forall k :: k in values <==> k in old(values) || k in Predefined
      ensures forall k :: k in old(values) ==> values[k] == old(values)[k]
      ensures forall k :: k in values && k !in old(values) ==> values[k] == ""
    {
      for i := 0 to |Predefined|
        invariant forall k :: k in values <==> k in old(values) || k in Predefined[..i]
        invariant forall k :: k in old(values) ==> values[k] == old(values)[k]
        invariant forall k :: k in values && k !in old(values) ==> values[k] == ""
      {
        var name := Predefined[i];
        assert Predefined[..i + 1] == Predefined[..i] + [name];
        if name !in values {
          values := values[name := ""];
        }
      }
      assert Predefined[..|Predefined|] == Predefined;
    }
  }
}
