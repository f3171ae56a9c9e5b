/**
 * The validators of the two menu steps: choosing a subject by its number in the
 * listed order, and choosing a content type by its exact key.
 */
module Menus {
  import opened Maybe
  import opened JsParseInt
  import opened BotTypes

  /**
   * `parseInt(text) - 1`, then the NaN and range checks: the 0-based index of the
   * chosen subject, or `None` when the reply is rejected.
   */
  function SelectSubject(subjects: seq<Subject>, text: string): (r: Option<nat>)
    ensures r.Some? ==> r.value < |subjects|
  {
    match ParseIntPrefix(text)
    case None => None
    case Some(k) =>
      var index := k - 1;
      if index < 0 || index >= |subjects| then None else Some(index)
  }

  /**
   * A subject reply is accepted exactly when `parseInt` reads a number k with
   * 1 <= k <= |subjects| from it, and then the chosen index is k - 1.
   */
  lemma SelectSubjectMeaning(subjects: seq<Subject>, text: string)
    ensures var r := SelectSubject(subjects, text);
            (r.Some? <==> ParseIntPrefix(text).Some? && 1 <= ParseIntPrefix(text).value <= |subjects|)
            && (r.Some? ==> r.value + 1 == ParseIntPrefix(text).value)
  {
  }

  /** The line that lists the subject at `index`: its 1-based number, a dot and its name. */
  function MenuLine(index: nat, s: Subject): (r: string)
    ensures |r| > |s.name| + 1 && r[|r| - |s.name| - 1..] == s.name + "\n"
    ensures IsDigit(r[0]) && r[0] != '0'
  {
    Decimal(index + 1) + ". " + s.name + "\n"
  }

  /** The numbered subject list, one `MenuLine` per subject in order. */
  function SubjectMenu(subjects: seq<Subject>): (r: string)
    ensures r == [] <==> subjects == []
  {
    if subjects == [] then ""
    else SubjectMenu(subjects[..|subjects| - 1]) + MenuLine(|subjects| - 1, subjects[|subjects| - 1])
  }

  /** The list built for the first subjects is the start of the list built for all of them. */
  lemma {:induction false} SubjectMenuPrefix(subjects: seq<Subject>, j: nat)
    requires j <= |subjects|
    ensures SubjectMenu(subjects[..j]) <= SubjectMenu(subjects)
    decreases |subjects|
  {
    if j < |subjects| {
      var init := subjects[..|subjects| - 1];
      assert init[..j] == subjects[..j];
      SubjectMenuPrefix(init, j);
    } else {
      assert subjects[..j] == subjects;
    }
  }

  /** The list shows the line of every subject, right after the lines of the subjects before it. */
  lemma SubjectMenuListsEach(subjects: seq<Subject>, i: nat)
    requires i < |subjects|
    ensures var start := |SubjectMenu(subjects[..i])|;
            var line := MenuLine(i, subjects[i]);
            start + |line| <= |SubjectMenu(subjects)| && SubjectMenu(subjects)[start..start + |line|] == line
  {
    assert subjects[..i + 1][..i] == subjects[..i];
    SubjectMenuPrefix(subjects, i + 1);
  }

  /** The `subjects.forEach` loop that appends one numbered line per subject. */
  method RenderSubjectList(subjects: seq<Subject>) returns (list: string)
    ensures list == SubjectMenu(subjects)
  {
    list := "";
    var index := 0;
    while index < |subjects|
      invariant 0 <= index <= |subjects|
      invariant list == SubjectMenu(subjects[..index])
    {
      assert subjects[..index + 1][..index] == subjects[..index];
      list := list + MenuLine(index, subjects[index]);
      index := index + 1;
    }
    assert subjects[..index] == subjects;
  }

  /** Replying with the number shown for a subject selects that subject. */
  lemma ShownNumberSelects(subjects: seq<Subject>, index: nat)
    requires index < |subjects|
    ensures SelectSubject(subjects, Decimal(index + 1)) == Some(index)
  {
    assert Decimal(index + 1) + "" == Decimal(index + 1);
    ParseDecimal(index + 1, "");
  }

  /** Replying with a whole listed line, name included, selects the subject on it. */
  lemma MenuLineSelects(subjects: seq<Subject>, index: nat)
    requires index < |subjects|
    ensures SelectSubject(subjects, MenuLine(index, subjects[index])) == Some(index)
  {
    var rest := ". " + subjects[index].name + "\n";
    assert MenuLine(index, subjects[index]) == Decimal(index + 1) + rest;
    ParseDecimal(index + 1, rest);
  }

  /** Zero is never a valid choice: the numbering starts at 1. */
  lemma ZeroRejected(subjects: seq<Subject>)
    ensures SelectSubject(subjects, "0") == None
  {
    assert Decimal(0) == "0";
    assert "0" == Decimal(0) + "";
    ParseDecimal(0, "");
  }

  /** A number one past the end of the list is rejected. */
  lemma PastEndRejected(subjects: seq<Subject>)
    ensures SelectSubject(subjects, Decimal(|subjects| + 1)) == None
  {
    assert Decimal(|subjects| + 1) + "" == Decimal(|subjects| + 1);
    ParseDecimal(|subjects| + 1, "");
  }

  /** A reply with no digits is rejected whatever the list. */
  lemma LettersRejected(subjects: seq<Subject>)
    ensures SelectSubject(subjects, "abc") == None
  {
    ParseLettersIsNaN();
  }

  /** With two subjects listed, "0" and "3" are out of range. */
  lemma TwoSubjectsOutOfRange(a: Subject, b: Subject)
    ensures SelectSubject([a, b], "0") == None
    ensures SelectSubject([a, b], "3") == None
  {
    ZeroRejected([a, b]);
    assert Decimal(3) == "3";
    PastEndRejected([a, b]);
  }

  /** With two subjects listed, "1" picks the first. */
  lemma TwoSubjectsFirst(a: Subject, b: Subject)
    ensures SelectSubject([a, b], "1") == Some(0)
  {
    assert ParseIntPrefix("1") == Some(1) by {
      assert Decimal(1) == "1";
      assert "1" == Decimal(1) + "";
      ParseDecimal(1, "");
    }
  }

  /** `typeMap` of addcontent's second step. */
  const AddContentTypes: map<string, ContentType> :=
    map["1" := Video, "2" := File, "3" := Topic, "4" := Quiz, "5" := Tips]

  /** `typeMap` of the upload's second step: "3" (study material) is stored as a file too. */
  const UploadTypes: map<string, ContentType> :=
    map["1" := Video, "2" := File, "3" := File]

  /** `typeMap[text]`: the type under exactly that key, or `None` when the reply is rejected. */
  function LookupType(menu: map<string, ContentType>, text: string): (r: Option<ContentType>)
    ensures menu == AddContentTypes ==> (r.Some? <==> text in {"1", "2", "3", "4", "5"})
    ensures menu == UploadTypes ==> (r.Some? <==> text in {"1", "2", "3"}) && (r.Some? ==> r.value in {Video, File})
  {
    if text in menu then Some(menu[text]) else None
  }

  /** Addcontent accepts exactly the keys "1" to "5". */
  lemma AddContentTypeAccepts(text: string)
    ensures LookupType(AddContentTypes, text).Some? <==>
            text == "1" || text == "2" || text == "3" || text == "4" || text == "5"
  {
  }

  /** Each of the five content types is offered by addcontent, under one key only. */
  lemma AddContentTypesOneKeyEach(a: string, b: string)
    requires a in AddContentTypes && b in AddContentTypes
    ensures AddContentTypes[a] == AddContentTypes[b] <==> a == b
  {
  }

  /** Upload accepts exactly "1", "2" and "3", and only ever yields video or file. */
  lemma UploadTypeIsVideoOrFile(text: string)
    ensures LookupType(UploadTypes, text).Some? <==> text == "1" || text == "2" || text == "3"
    ensures LookupType(UploadTypes, text) == Some(Video) || LookupType(UploadTypes, text) == Some(File)
            || LookupType(UploadTypes, text) == None
  {
  }

  /** Keys "2" and "3" of the upload menu mean the same type. */
  lemma UploadFileAlias()
    ensures LookupType(UploadTypes, "2") == LookupType(UploadTypes, "3") == Some(File)
  {
  }
}
