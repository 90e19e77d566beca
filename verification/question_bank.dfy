/** The question bank: thirty knowledge-check items, six per level. */
module QuestionBank {
  import opened Wrappers
  import opened Seqs
  import opened Text

  /** 'mcq' (pick one of the listed options) or 'input' (type the answer). */
  datatype QuestionKind = Mcq | Input

  /** One catalog entry, with the fields that decide play: its id, level,
      kind, the options of a multiple-choice question and the answer. The
      wording, the optional code listing and the explanation are display
      text and are not part of this record. */
  datatype Question = Question(
    id: string,
    level: int,
    kind: QuestionKind,
    options: Option<seq<string>>,
    correctAnswer: string)

  /** Level 1: Basic C concepts. */
  const Level1Questions: seq<Question> := [
    Question("l1q1", 1, Mcq, Some(["constant int x = 5;", "const int x = 5;", "int const x;", "#define x = 5"]), "const int x = 5;"),
    Question("l1q2", 1, Mcq, Some(["%d", "%f", "%c", "%s"]), "%f"),
    Question("l1q3", 1, Mcq, Some(["_count", "my_var", "2ndValue", "total"]), "2ndValue"),
    Question("l1q4", 1, Mcq, Some(["Program ended with error", "Program executed successfully", "Program returns nothing", "Program restarts"]), "Program executed successfully"),
    Question("l1q5", 1, Mcq, Some(["<stdlib.h>", "<stdio.h>", "<string.h>", "<math.h>"]), "<stdio.h>"),
    Question("l1q6", 1, Mcq, Some(["1 byte", "2 bytes", "4 bytes", "Depends on compiler"]), "1 byte")
  ]

  /** Level 2: Increment and output prediction. */
  const Level2Questions: seq<Question> := [
    Question("l2q1", 2, Mcq, Some(["10", "11", "12", "Undefined Behavior"]), "Undefined Behavior"),
    Question("l2q2", 2, Input, None, "10"),
    Question("l2q3", 2, Input, None, "6"),
    Question("l2q4", 2, Input, None, "15"),
    Question("l2q5", 2, Mcq, Some(["5 7", "5 6", "6 7", "Undefined Behavior"]), "Undefined Behavior"),
    Question("l2q6", 2, Input, None, "3")
  ]

  /** Level 3: Pointers and memory. */
  const Level3Questions: seq<Question> := [
    Question("l3q1", 3, Mcq, Some(["An array of 10 integer pointers", "A pointer to an array of 10 integers", "A function pointer returning int", "A pointer to pointer to int"]), "A pointer to an array of 10 integers"),
    Question("l3q2", 3, Mcq, Some(["Returns 0", "Returns NULL", "Undefined behavior", "Compiler error"]), "Undefined behavior"),
    Question("l3q3", 3, Input, None, "30"),
    Question("l3q4", 3, Mcq, Some(["alloc()", "malloc()", "new()", "create()"]), "malloc()"),
    Question("l3q5", 3, Mcq, Some(["2", "4", "8", "Depends on array size"]), "8"),
    Question("l3q6", 3, Input, None, "7")
  ]

  /** Level 4: Data types and the compiler. */
  const Level4Questions: seq<Question> := [
    Question("l4q1", 4, Mcq, Some(["6 bytes", "8 bytes", "12 bytes", "9 bytes"]), "12 bytes"),
    Question("l4q2", 4, Mcq, Some(["13 bytes", "8 bytes", "4 bytes", "1 byte"]), "8 bytes"),
    Question("l4q3", 4, Input, None, "6"),
    Question("l4q4", 4, Mcq, Some(["Creates a new data type", "Creates an alias for an existing type", "Defines a macro", "Declares a variable"]), "Creates an alias for an existing type"),
    Question("l4q5", 4, Input, None, "4294967295"),
    Question("l4q6", 4, Input, None, "4")
  ]

  /** Level 5: Arrays, pointers and arithmetic. */
  const Level5Questions: seq<Question> := [
    Question("l5q1", 5, Input, None, "60"),
    Question("l5q2", 5, Input, None, "5"),
    Question("l5q3", 5, Input, None, "6"),
    Question("l5q4", 5, Mcq, Some(["int *fptr(int, int);", "int (*fptr)(int, int);", "int *(fptr)(int, int);", "(int*) fptr(int, int);"]), "int (*fptr)(int, int);"),
    Question("l5q5", 5, Input, None, "8"),
    Question("l5q6", 5, Input, None, "42")
  ]

  /** The whole table, level by level in ascending order. */
  const Questions: seq<Question> :=
    Level1Questions + Level2Questions + Level3Questions + Level4Questions + Level5Questions

  /** The filter predicate `q => q.level === level`. */
  function LevelIs(level: int): Question -> bool {
    (q: Question) => q.level == level
  }

  /** The identifier of question `n` of level `level`: 'l<level>q<n>'. */
  function CatalogId(level: int, n: int): string
    requires 1 <= level <= 9 && 1 <= n <= 9
  {
    ['l', ('0' as int + level) as char, 'q', ('0' as int + n) as char]
  }

  predicate DistinctIds(qs: seq<Question>) {
    forall i, j :: 0 <= i < j < |qs| ==> qs[i].id != qs[j].id
  }

  predicate IsDigits(s: string) {
    forall k :: 0 <= k < |s| ==> '0' <= s[k] <= '9'
  }

  /** A multiple-choice question lists four distinct, non-empty options, one
      of which is its answer. */
  predicate McqWellFormed(q: Question) {
    && q.options.Some? && |q.options.value| == 4
    && (forall a :: 0 <= a < 4 ==> q.options.value[a] != [])
    && (forall a, b :: 0 <= a < b < 4 ==> q.options.value[a] != q.options.value[b])
    && q.correctAnswer in q.options.value
  }

  /** A typed-answer question has no options, and its answer is a non-empty
      string of digits. */
  predicate InputWellFormed(q: Question) {
    q.options.None? && q.correctAnswer != [] && IsDigits(q.correctAnswer)
  }

  predicate WellFormed(q: Question) {
    match q.kind
    case Mcq => McqWellFormed(q)
    case Input => InputWellFormed(q)
  }

  /** `qs` holds the six questions of `level`, numbered 'l<level>q1' to
      'l<level>q6' in order. */
  predicate IsBlock(qs: seq<Question>, level: int) {
    && 1 <= level <= 5 && |qs| == 6
    && forall n :: 0 <= n < 6 ==> qs[n].level == level && qs[n].id == CatalogId(level, n + 1)
  }

  /** `qs` is whole blocks of six, level 1 first: entry `i` is question
      `i % 6 + 1` of level `i / 6 + 1`. */
  predicate LaidOut(qs: seq<Question>) {
    && |qs| <= 30 && |qs| % 6 == 0
    && forall i :: 0 <= i < |qs| ==>
         qs[i].level == i / 6 + 1 && qs[i].id == CatalogId(i / 6 + 1, i % 6 + 1)
  }

  lemma Level1Block() ensures IsBlock(Level1Questions, 1) {}
  lemma Level2Block() ensures IsBlock(Level2Questions, 2) {}
  lemma Level3Block() ensures IsBlock(Level3Questions, 3) {}
  lemma Level4Block() ensures IsBlock(Level4Questions, 4) {}
  lemma Level5Block() ensures IsBlock(Level5Questions, 5) {}

  lemma Level1WellFormed() ensures forall q :: q in Level1Questions ==> WellFormed(q) {}
  lemma Level2WellFormed() ensures forall q :: q in Level2Questions ==> WellFormed(q) {}
  lemma Level3WellFormed() ensures forall q :: q in Level3Questions ==> WellFormed(q) {}
  lemma Level4WellFormed() ensures forall q :: q in Level4Questions ==> WellFormed(q) {}
  lemma Level5WellFormed() ensures forall q :: q in Level5Questions ==> WellFormed(q) {}

  /** Positions `6 * (level - 1)` to `6 * level - 1` are the block of `level`. */
  lemma BlockPosition(i: int, level: int)
    requires 6 * (level - 1) <= i < 6 * level
    ensures i / 6 == level - 1 && i % 6 == i - 6 * (level - 1)
  {
  }

  /** Appending the block of the next level keeps the layout. */
  lemma AppendBlock(a: seq<Question>, b: seq<Question>, level: int)
    requires LaidOut(a) && |a| == 6 * (level - 1) && IsBlock(b, level)
    ensures LaidOut(a + b) && |a + b| == 6 * level
  {
    var c := a + b;
    forall i | 0 <= i < |c|
      ensures c[i].level == i / 6 + 1 && c[i].id == CatalogId(i / 6 + 1, i % 6 + 1)
    {
      if i < |a| {
        assert c[i] == a[i];
      } else {
        assert c[i] == b[i - |a|];
        BlockPosition(i, level);
      }
    }
  }

  /** Five blocks, levels 1 to 5 in order, make a laid-out table of thirty. */
  lemma {:induction false} FiveBlocks(b1: seq<Question>, b2: seq<Question>, b3: seq<Question>,
                                      b4: seq<Question>, b5: seq<Question>)
    requires IsBlock(b1, 1) && IsBlock(b2, 2) && IsBlock(b3, 3) && IsBlock(b4, 4) && IsBlock(b5, 5)
    ensures LaidOut(b1 + b2 + b3 + b4 + b5) && |b1 + b2 + b3 + b4 + b5| == 30
  {
    assert [] + b1 == b1;
    AppendBlock([], b1, 1);
    AppendBlock(b1, b2, 2);
    AppendBlock(b1 + b2, b3, 3);
    AppendBlock(b1 + b2 + b3, b4, 4);
    AppendBlock(b1 + b2 + b3 + b4, b5, 5);
  }

  /** The catalog is laid out level by level, six questions each. */
  lemma CatalogLayout()
    ensures LaidOut(Questions) && |Questions| == 30
  {
    Level1Block(); Level2Block(); Level3Block(); Level4Block(); Level5Block();
    FiveBlocks(Level1Questions, Level2Questions, Level3Questions, Level4Questions, Level5Questions);
  }

  lemma CatalogIdInjective(l1: int, n1: int, l2: int, n2: int)
    requires 1 <= l1 <= 9 && 1 <= n1 <= 9 && 1 <= l2 <= 9 && 1 <= n2 <= 9
    ensures CatalogId(l1, n1) == CatalogId(l2, n2) ==> l1 == l2 && n1 == n2
  {
    if CatalogId(l1, n1) == CatalogId(l2, n2) {
      assert CatalogId(l1, n1)[1] == CatalogId(l2, n2)[1];
      assert CatalogId(l1, n1)[3] == CatalogId(l2, n2)[3];
    }
  }

  /** In a laid-out table no two entries share an id. */
  lemma LaidOutDistinct(qs: seq<Question>)
    requires LaidOut(qs)
    ensures DistinctIds(qs)
  {
    forall i, j | 0 <= i < j < |qs| ensures qs[i].id != qs[j].id {
      CatalogIdInjective(i / 6 + 1, i % 6 + 1, j / 6 + 1, j % 6 + 1);
    }
  }

  /** No two questions share an id. */
  lemma IdsDistinct()
    ensures DistinctIds(Questions)
  {
    CatalogLayout();
    LaidOutDistinct(Questions);
  }

  /** Every question belongs to one of the five levels, and the table lists
      the levels in ascending order. */
  lemma LevelsInRangeAndAscending()
    ensures forall i :: 0 <= i < |Questions| ==> 1 <= Questions[i].level <= 5
    ensures forall i, j :: 0 <= i <= j < |Questions| ==> Questions[i].level <= Questions[j].level
  {
    CatalogLayout();
  }

  /** Every question is well formed for its kind. */
  lemma CatalogWellFormed()
    ensures forall q :: q in Questions ==> WellFormed(q)
  {
    Level1WellFormed(); Level2WellFormed(); Level3WellFormed(); Level4WellFormed(); Level5WellFormed();
  }

  /** A string of digits has no whitespace to trim. */
  lemma DigitsAreTrimmed(s: string)
    requires IsDigits(s)
    ensures Trim(s) == s
  {
    TrimFixesBorderless(s);
  }

  /** Every typed answer is its own trim, so a trimmed input can equal it. */
  lemma InputAnswersTrimmed()
    ensures forall q :: q in Questions && q.kind == Input ==>
      q.correctAnswer != [] && Trim(q.correctAnswer) == q.correctAnswer
  {
    CatalogWellFormed();
    forall q | q in Questions && q.kind == Input
      ensures q.correctAnswer != [] && Trim(q.correctAnswer) == q.correctAnswer
    {
      DigitsAreTrimmed(q.correctAnswer);
    }
  }

  /** In a laid-out table of thirty, the questions of `level` are exactly the
      entries at positions `6 * (level - 1)` to `6 * level - 1`. */
  lemma LevelPositions(qs: seq<Question>, level: int)
    requires LaidOut(qs) && |qs| == 30 && 1 <= level <= 5
    ensures forall i :: 0 <= i < |qs| ==>
      (LevelIs(level)(qs[i]) <==> 6 * (level - 1) <= i < 6 * level)
  {
    forall i | 0 <= i < |qs|
      ensures LevelIs(level)(qs[i]) <==> 6 * (level - 1) <= i < 6 * level
    {
      assert qs[i].level == i / 6 + 1;
    }
  }

  /** The questions of a level are the six consecutive entries of its block. */
  lemma QuestionsOfLevel(level: int)
    requires 1 <= level <= 5
    ensures |Questions| == 30
    ensures Filter(Questions, LevelIs(level)) == Questions[6 * (level - 1)..6 * level]
    ensures |Filter(Questions, LevelIs(level))| == 6
  {
    CatalogLayout();
    LevelPositions(Questions, level);
    FilterSegment(Questions, LevelIs(level), 6 * (level - 1), 6 * level);
  }

  /** A slice of a table with distinct ids has distinct ids. */
  lemma SliceKeepsDistinctIds(qs: seq<Question>, lo: nat, hi: nat)
    requires lo <= hi <= |qs| && DistinctIds(qs)
    ensures DistinctIds(qs[lo..hi])
  {
    var t := qs[lo..hi];
    forall x, y | 0 <= x < y < |t| ensures t[x].id != t[y].id {
      assert t[x] == qs[lo + x] && t[y] == qs[lo + y];
    }
  }

  /** The six questions of a level have distinct ids. */
  lemma LevelPoolDistinct(level: int)
    requires 1 <= level <= 5
    ensures |Filter(Questions, LevelIs(level))| == 6
    ensures DistinctIds(Filter(Questions, LevelIs(level)))
  {
    QuestionsOfLevel(level);
    IdsDistinct();
    SliceKeepsDistinctIds(Questions, 6 * (level - 1), 6 * level);
  }

  /** In a laid-out table of thirty, the first question of a level is the
      head of its block, 'l<level>q1'. */
  lemma FirstOfBlock(qs: seq<Question>, level: int)
    requires LaidOut(qs) && |qs| == 30 && 1 <= level <= 5
    ensures Find(qs, LevelIs(level)) == Some(qs[6 * (level - 1)])
    ensures qs[6 * (level - 1)].level == level
    ensures qs[6 * (level - 1)].id == CatalogId(level, 1)
  {
    LevelPositions(qs, level);
    FindSegmentStart(qs, LevelIs(level), 6 * (level - 1), 6 * level);
  }

  /** The first question of a level in the catalog is 'l<level>q1'. */
  lemma FirstOfLevel(level: int)
    requires 1 <= level <= 5
    ensures |Questions| == 30
    ensures Find(Questions, LevelIs(level)) == Some(Questions[6 * (level - 1)])
    ensures Questions[6 * (level - 1)].level == level
    ensures Questions[6 * (level - 1)].id == CatalogId(level, 1)
  {
    CatalogLayout();
    FirstOfBlock(Questions, level);
  }
}
