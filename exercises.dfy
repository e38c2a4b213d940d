/** The exercise pages of apps/views/exercises.py over the tables of apps/models/exercises.py:
    the detail page's instruction list (each instruction's text broken into lines, stripped,
    blank lines dropped) and favorite flag, and the muscle page's list with a favorite flag on
    every exercise. */
module Exercises {
  import opened Common
  import opened Sorting
  import opened Favorites

  /** An `Exercise` row, with its muscle group given by the group's name (`str(muscle_group)`)
      and its thumbnail by its URL when one is uploaded. */
  datatype Exercise = Exercise(
    id: nat, name: string, muscleGroup: string, difficulty: string, equipment: string,
    thumbnail: Option<string>)

  /** The `Difficulty` choices; a new exercise is `intermediate`. */
  const Beginner := "beginner"
  const Intermediate := "intermediate"
  const Advanced := "advanced"

  /** An `ExerciseInstruction` row. `text` is a required column, so the database always holds a
      string; `None` stands for the attribute being absent, which the view also allows for. */
  datatype Instruction = Instruction(id: nat, exercise: nat, step: int, text: Option<string>)

  // ===== Python's line splitting and stripping =====

  /** The characters `str.splitlines` breaks at. */
  predicate IsLineBreak(c: char) {
    c == '\n' || c == '\r' || c as int in {0x0B, 0x0C, 0x1C, 0x1D, 0x1E, 0x85, 0x2028, 0x2029}
  }

  predicate NoBreak(s: string) {
    forall i :: 0 <= i < |s| ==> !IsLineBreak(s[i])
  }

  /** The position of the first line break in `s`, or `|s|` when there is none. */
  function BreakIndex(s: string): (k: nat)
    ensures k <= |s| && NoBreak(s[..k])
    ensures k < |s| ==> IsLineBreak(s[k])
  {
    if s == [] then 0
    else if IsLineBreak(s[0]) then 0
    else
      var k := 1 + BreakIndex(s[1..]);
      assert s[..k] == [s[0]] + s[1..][..k - 1];
      k
  }

  /** `str.splitlines()`: the pieces between line breaks, with `\r\n` one break and no piece
      after a final break. */
  function SplitLines(s: string): (lines: seq<string>)
    ensures forall i :: 0 <= i < |lines| ==> NoBreak(lines[i])
    decreases |s|
  {
    if s == [] then []
    else
      var k := BreakIndex(s);
      if k == |s| then [s]
      else
        var next := if s[k] == '\r' && k + 1 < |s| && s[k + 1] == '\n' then k + 2 else k + 1;
        [s[..k]] + SplitLines(s[next..])
  }

  /** The lines joined with `\n`, the inverse of SplitLines. */
  function JoinLines(lines: seq<string>): string {
    if lines == [] then ""
    else if |lines| == 1 then lines[0]
    else lines[0] + "\n" + JoinLines(lines[1..])
  }

  lemma BreakIndexOfJoin(a: string, b: string)
    requires NoBreak(a)
    ensures BreakIndex(a + "\n" + b) == |a|
  {
    if a != [] {
      assert (a + "\n" + b)[1..] == a[1..] + "\n" + b;
      BreakIndexOfJoin(a[1..], b);
    }
  }

  /** Splitting lines that were joined with `\n` gives them back, as long as none holds a break
      and the last is not empty (a trailing break does not start a new line). */
  lemma {:induction false} SplitJoinedLines(lines: seq<string>)
    requires forall i :: 0 <= i < |lines| ==> NoBreak(lines[i])
    requires lines != [] ==> lines[|lines| - 1] != []
    ensures SplitLines(JoinLines(lines)) == lines
  {
    if |lines| == 1 {
      assert lines[0][..|lines[0]|] == lines[0];
    } else if |lines| > 1 {
      var s := JoinLines(lines);
      var a := lines[0];
      assert s == a + "\n" + JoinLines(lines[1..]);
      BreakIndexOfJoin(a, JoinLines(lines[1..]));
      assert s[..|a|] == a;
      assert s[|a|] == '\n';
      assert s[|a| + 1..] == JoinLines(lines[1..]);
      SplitJoinedLines(lines[1..]);
    }
  }

  /** The stripped non-blank lines, in order (the comprehension inside the view). */
  function NonBlankStripped(lines: seq<string>): (r: seq<string>)
    ensures |r| <= |lines|
    ensures forall i :: 0 <= i < |r| ==> r[i] != [] && Strip(r[i]) == r[i]
  {
    if lines == [] then []
    else
      var rest := NonBlankStripped(lines[1..]);
      var line := Strip(lines[0]);
      StripIdempotent(lines[0]);
      if line != [] then [line] + rest else rest
  }

  /** Lines that are already stripped and non-blank pass through unchanged. */
  lemma {:induction false} NonBlankStrippedClean(lines: seq<string>)
    requires forall i :: 0 <= i < |lines| ==> lines[i] != [] && Strip(lines[i]) == lines[i]
    ensures NonBlankStripped(lines) == lines
  {
    if lines != [] {
      NonBlankStrippedClean(lines[1..]);
    }
  }

  /** The lines one instruction contributes: nothing when the text is missing or empty. */
  function TextLines(text: Option<string>): (r: seq<string>)
    ensures text.None? || text == Some("") ==> r == []
  {
    if text.None? || text.value == "" then [] else NonBlankStripped(SplitLines(text.value))
  }

  /** A text written as clean lines joined by `\n` reads back as exactly those lines. */
  lemma TextLinesOfJoined(lines: seq<string>)
    requires forall i :: 0 <= i < |lines| ==> NoBreak(lines[i]) && lines[i] != [] && Strip(lines[i]) == lines[i]
    ensures TextLines(Some(JoinLines(lines))) == lines
  {
    SplitJoinedLines(lines);
    NonBlankStrippedClean(lines);
  }

  /** `instructions_list`: the lines of every instruction, in the order given. */
  function InstructionLines(instrs: seq<Instruction>): seq<string> {
    if instrs == [] then []
    else InstructionLines(instrs[..|instrs| - 1]) + TextLines(instrs[|instrs| - 1].text)
  }

  /** The loop building the detail page's `instructions_list`. */
  method InstructionsList(instrs: seq<Instruction>) returns (lines: seq<string>)
    ensures lines == InstructionLines(instrs)
  {
    lines := [];
    var i := 0;
    while i < |instrs|
      invariant 0 <= i <= |instrs|
      invariant lines == InstructionLines(instrs[..i])
    {
      var text := instrs[i].text;
      if text.Some? && text.value != "" {
        var piece := NonBlankStripped(SplitLines(text.value));
        lines := lines + piece;
      }
      LinesOfPrefix(instrs, i);
      i := i + 1;
    }
    assert instrs[..|instrs|] == instrs;
  }

  lemma LinesOfPrefix(instrs: seq<Instruction>, i: nat)
    requires i < |instrs|
    ensures InstructionLines(instrs[..i + 1]) == InstructionLines(instrs[..i]) + TextLines(instrs[i].text)
  {
    assert instrs[..i + 1][..i] == instrs[..i];
  }

  /** The list of several instructions is the lists of each, one after another. */
  lemma {:induction false} InstructionLinesAppend(a: seq<Instruction>, b: seq<Instruction>)
    ensures InstructionLines(a + b) == InstructionLines(a) + InstructionLines(b)
  {
    if b != [] {
      var b' := b[..|b| - 1];
      assert (a + b)[..|a + b| - 1] == a + b';
      InstructionLinesAppend(a, b');
    } else {
      assert a + b == a;
    }
  }

  /** Every entry is stripped and not blank. */
  lemma {:induction false} InstructionLinesClean(instrs: seq<Instruction>)
    ensures forall i :: 0 <= i < |InstructionLines(instrs)| ==>
      InstructionLines(instrs)[i] != [] && Strip(InstructionLines(instrs)[i]) == InstructionLines(instrs)[i]
  {
    if instrs != [] {
      InstructionLinesClean(instrs[..|instrs| - 1]);
    }
  }

  /** An instruction without text adds nothing to the list. */
  lemma EmptyInstructionAddsNothing(a: seq<Instruction>, x: Instruction, b: seq<Instruction>)
    requires x.text.None? || x.text == Some("")
    ensures InstructionLines(a + [x] + b) == InstructionLines(a + b)
  {
    InstructionLinesAppend(a + [x], b);
    assert (a + [x])[..|a|] == a;
    assert InstructionLines(a + [x]) == InstructionLines(a);
    InstructionLinesAppend(a, b);
  }

  // ===== instruction order =====

  /** `ordering = ['step_number']`. */
  predicate StepLe(a: Instruction, b: Instruction) {
    a.step <= b.step
  }

  /** The key of `unique_together = ('exercise', 'step_number')`. */
  function StepKey(x: Instruction): (int, int) {
    (x.exercise, x.step)
  }

  /** The rows of one exercise, in table order. */
  function ForExercise(table: seq<Instruction>, e: nat): (r: seq<Instruction>)
    ensures forall x :: x in r <==> x in table && x.exercise == e
    ensures forall i :: 0 <= i < |r| ==> r[i].exercise == e
  {
    if table == [] then []
    else (if table[0].exercise == e then [table[0]] else []) + ForExercise(table[1..], e)
  }

  lemma {:induction false} ForExerciseDistinct(table: seq<Instruction>, e: nat)
    requires DistinctBy(table, StepKey)
    ensures DistinctBy(ForExercise(table, e), StepKey)
  {
    if table != [] {
      ForExerciseDistinct(table[1..], e);
      var rest := ForExercise(table[1..], e);
      if table[0].exercise == e {
        forall j | 0 <= j < |rest|
          ensures StepKey(table[0]) != StepKey(rest[j])
        {
          assert rest[j] in table[1..];
          var k :| 0 <= k < |table[1..]| && table[1..][k] == rest[j];
          assert StepKey(table[0]) != StepKey(table[k + 1]);
        }
      }
    }
  }

  /** `exercise.instructions.all()`: the exercise's instructions ordered by step. */
  function InstructionsOf(table: seq<Instruction>, e: nat): (r: seq<Instruction>)
    ensures multiset(r) == multiset(ForExercise(table, e))
    ensures SortedBy(r, StepLe)
  {
    assert TotalPreorder(StepLe);
    SortBySorted(ForExercise(table, e), StepLe);
    SortBy(ForExercise(table, e), StepLe)
  }

  /** Under the table's uniqueness rule, an exercise's steps strictly increase. */
  lemma InstructionStepsIncrease(table: seq<Instruction>, e: nat)
    requires DistinctBy(table, StepKey)
    ensures forall i, j :: 0 <= i < j < |InstructionsOf(table, e)| ==>
      InstructionsOf(table, e)[i].step < InstructionsOf(table, e)[j].step
  {
    var r := InstructionsOf(table, e);
    ForExerciseDistinct(table, e);
    PermutationKeepsDistinct(r, ForExercise(table, e), StepKey);
    forall i, j | 0 <= i < j < |r|
      ensures r[i].step < r[j].step
    {
      assert r[i] in multiset(ForExercise(table, e)) && r[j] in multiset(ForExercise(table, e));
      assert StepKey(r[i]) != StepKey(r[j]);
    }
  }

  // ===== favorite flags =====

  /** `is_favorited` on the detail page: a profile is needed, and then a favorite of that
      profile for the exercise. */
  function IsFavorited(favorites: map<nat, Favorite>, profile: Option<nat>, exercise: nat): (b: bool)
    ensures b <==> (profile.Some? &&
      exists k :: k in favorites && favorites[k].user == profile.value && favorites[k].exercise == exercise)
  {
    profile.Some? && FavoritesFor(favorites, profile.value, exercise) != {}
  }

  /** The detail page's context: the instruction list and the favorite flag. */
  method ExerciseDetail(table: seq<Instruction>, favorites: map<nat, Favorite>, profile: Option<nat>, e: nat)
    returns (lines: seq<string>, isFavorited: bool)
    ensures lines == InstructionLines(InstructionsOf(table, e))
    ensures isFavorited <==> profile.Some? && e in FavoriteExercises(favorites, profile.value)
  {
    lines := InstructionsList(InstructionsOf(table, e));
    isFavorited := IsFavorited(favorites, profile, e);
  }

  /** An exercise on the muscle page; the view sets its `is_favorited` attribute. */
  class ExerciseItem {
    const id: nat
    const name: string
    var isFavorited: bool

    constructor (id: nat, name: string)
      ensures this.id == id && this.name == name && !isFavorited
    {
      this.id := id;
      this.name := name;
      isFavorited := false;
    }
  }

  /** The muscle page's flag loop: with a profile, an exercise is flagged iff its id is among the
      profile's favorite exercises; without one, none is. */
  method MarkFavorites(items: seq<ExerciseItem>, favorites: map<nat, Favorite>, profile: Option<nat>)
    modifies set x | x in items
    ensures forall i :: 0 <= i < |items| ==> items[i].isFavorited == IsFavorited(favorites, profile, items[i].id)
  {
    if profile.Some? {
      var ids := set x | x in items :: x.id;
      var favoriteIds := FavoriteExercises(favorites, profile.value) * ids;
      var i := 0;
      while i < |items|
        invariant 0 <= i <= |items|
        invariant forall j :: 0 <= j < i ==> items[j].isFavorited == IsFavorited(favorites, profile, items[j].id)
      {
        items[i].isFavorited := items[i].id in favoriteIds;
        i := i + 1;
      }
    } else {
      var i := 0;
      while i < |items|
        invariant 0 <= i <= |items|
        invariant forall j :: 0 <= j < i ==> !items[j].isFavorited
      {
        items[i].isFavorited := false;
        i := i + 1;
      }
    }
  }

  /** `order_by('name')`. */
  predicate NameLe(a: Exercise, b: Exercise) {
    StrLe(a.name, b.name)
  }

  /** The muscle page's exercises: the rows the muscle filter matched, ordered by name. */
  function MuscleList(matched: seq<Exercise>): (r: seq<Exercise>)
    ensures multiset(r) == multiset(matched)
    ensures SortedBy(r, NameLe)
  {
    assert TotalPreorder(NameLe) by {
      forall a: Exercise, b: Exercise
        ensures NameLe(a, b) || NameLe(b, a)
      {
        StrLeTotal(a.name, b.name);
      }
      forall a: Exercise, b: Exercise, c: Exercise | NameLe(a, b) && NameLe(b, c)
        ensures NameLe(a, c)
      {
        StrLeTransitive(a.name, b.name, c.name);
      }
    }
    SortBySorted(matched, NameLe);
    SortBy(matched, NameLe)
  }

  /** `user_collections` on the muscle page: the profile's collections, newest first. */
  function UserCollections(rows: seq<Collection>, profile: nat): (r: seq<Collection>)
    ensures forall c :: c in r <==> c in rows && c.user == profile
    ensures SortedBy(r, CollectionNewerFirst)
  {
    var own := OwnCollections(rows, profile);
    var r := CollectionsInOrder(own);
    assert forall c :: c in r <==> c in multiset(own);
    r
  }

  function OwnCollections(rows: seq<Collection>, profile: nat): (r: seq<Collection>)
    ensures forall c :: c in r <==> c in rows && c.user == profile
  {
    if rows == [] then []
    else (if rows[0].user == profile then [rows[0]] else []) + OwnCollections(rows[1..], profile)
  }
}
