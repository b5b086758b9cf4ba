/**
 * The lines Santa and the elf say about a child's letter: friendly text for the
 * letter's behaviour and snack codes, the wishes phrase, and the five scripts.
 */
module Letters {
  import opened Wrappers
  import opened Text

  /**
   * A letter as the letter API returns it.  Each field is `None` when the key is
   * missing or null; a null entry in the wish list is `None` too.
   */
  datatype Letter = Letter(
    behavior: Option<string>,
    niceThing: Option<string>,
    wishes: Option<seq<Option<string>>>,
    snack: Option<string>)

  /** The five script lines generated for a letter. */
  datatype Scripts = Scripts(
    elfLetterNotice: string,
    santaLetterIntro: string,
    santaNiceThing: string,
    santaWishes: string,
    santaSnack: string)

  const BehaviorText: map<string, string> := map[
    "super_good" := "super duper good",
    "pretty_good" := "pretty good",
    "mostly_good" := "mostly good"]

  const SnackText: map<string, string> := map[
    "cookies" := "cookies",
    "mince_pies" := "mince pies",
    "carrots_for_reindeer" := "carrots for my reindeer"]

  /** Friendly text for a behaviour code; an unknown code reads "good". */
  function FormatBehavior(behavior: string): (text: string)
    ensures behavior == "super_good" ==> text == "super duper good"
    ensures behavior == "pretty_good" ==> text == "pretty good"
    ensures behavior == "mostly_good" ==> text == "mostly good"
    ensures text == "good" <==> behavior !in {"super_good", "pretty_good", "mostly_good"}
  {
    if behavior in BehaviorText then BehaviorText[behavior] else "good"
  }

  /** Friendly text for a snack code; an unknown code reads "cookies". */
  function FormatSnack(snack: string): (text: string)
    ensures snack == "cookies" ==> text == "cookies"
    ensures snack == "mince_pies" ==> text == "mince pies"
    ensures snack == "carrots_for_reindeer" ==> text == "carrots for my reindeer"
    ensures text == "cookies" <==> snack !in {"mince_pies", "carrots_for_reindeer"}
  {
    if snack in SnackText then SnackText[snack] else "cookies"
  }

  /** The test `w and w.strip()`: present and not only whitespace. */
  predicate IsUsableWish(w: Option<string>)
    ensures IsUsableWish(w) ==> w.Some? && w.value != []
    ensures w == Some([]) ==> !IsUsableWish(w)
  {
    w.Some? && !IsBlank(w.value)
  }

  /** The usable wishes, in order and unstripped. */
  function UsableWishes(wishes: seq<Option<string>>): (usable: seq<string>)
    ensures |usable| <= |wishes|
    ensures forall k :: 0 <= k < |usable| ==> !IsBlank(usable[k]) && Some(usable[k]) in wishes
  {
    if wishes == [] then []
    else if IsUsableWish(wishes[0]) then [wishes[0].value] + UsableWishes(wishes[1..])
    else UsableWishes(wishes[1..])
  }

  /** Filtering a concatenation filters each part. */
  lemma {:induction false} UsableWishesAppend(a: seq<Option<string>>, b: seq<Option<string>>)
    ensures UsableWishes(a + b) == UsableWishes(a) + UsableWishes(b)
  {
    if a == [] {
      assert a + b == b;
    } else {
      assert (a + b)[1..] == a[1..] + b;
      UsableWishesAppend(a[1..], b);
    }
  }

  /** No wish is usable exactly when every entry is missing or blank. */
  lemma {:induction false} NoUsableWishes(wishes: seq<Option<string>>)
    ensures UsableWishes(wishes) == [] <==> forall k :: 0 <= k < |wishes| ==> !IsUsableWish(wishes[k])
  {
    if wishes != [] {
      NoUsableWishes(wishes[1..]);
      assert forall k :: 1 <= k < |wishes| ==> wishes[k] == wishes[1..][k - 1];
    }
  }

  /** The wishes phrase: the first two usable wishes joined with " and ". */
  function WishesText(wishes: seq<Option<string>>): (text: string)
    ensures text == "" <==> UsableWishes(wishes) == []
    ensures |UsableWishes(wishes)| == 1 ==> text == UsableWishes(wishes)[0]
    ensures |UsableWishes(wishes)| >= 2 ==>
      text == UsableWishes(wishes)[0] + " and " + UsableWishes(wishes)[1]
  {
    var usable := UsableWishes(wishes);
    var valid := if |usable| <= 2 then usable else usable[..2];
    if |valid| >= 2 then valid[0] + " and " + valid[1]
    else if |valid| == 1 then valid[0]
    else ""
  }

  /** Once two usable wishes have been seen, later entries do not change the phrase. */
  lemma OnlyFirstTwoWishesUsed(wishes: seq<Option<string>>, later: seq<Option<string>>)
    requires |UsableWishes(wishes)| >= 2
    ensures WishesText(wishes + later) == WishesText(wishes)
  {
    UsableWishesAppend(wishes, later);
  }

  // The fixed text around the interpolated parts of each script.
  const ElfNoticeHead := "Oh wait! *magical chime* I just received a special letter! Is this from... "
  const ElfNoticeTail := "? Let me make sure Santa sees this right away!"
  const IntroHead := "I just read your wonderful letter, "
  const IntroMiddle := "! You said you've been "
  const IntroTail := " this year!"
  const NiceThingHead := "I was so happy to hear that you "
  const NiceThingTail := ". That was very kind of you, and I've added extra stars to your name on my Nice List!"
  const WishesHead := "Now, I see you would really love a "
  const WishesTail := "! Those are wonderful wishes! I'll see what I can do!"
  const SnackHead := "And thank you for leaving out "
  const SnackTail := " for me! I do get very hungry on Christmas Eve!"

  /** Santa's intro line: it names the child and the behaviour text. */
  function Intro(childName: string, behavior: string): (line: string)
    ensures Contains(line, childName) && Contains(line, behavior)
  {
    var line := IntroHead + childName + IntroMiddle + behavior + IntroTail;
    assert line[|IntroHead|..] == childName + IntroMiddle + behavior + IntroTail;
    ContainsMiddle(IntroHead + childName + IntroMiddle, behavior, IntroTail);
    line
  }

  /** The scripts for `letter`, addressed to `childName`. */
  function GenerateLetterScripts(letter: Letter, childName: string): (s: Scripts)
    ensures s.santaNiceThing == "" <==> letter.niceThing.GetOr("") == ""
    ensures s.santaWishes == "" <==> UsableWishes(letter.wishes.GetOr([])) == []
    ensures s.santaSnack != ""
  {
    var elfLetterNotice := ElfNoticeHead + childName + ElfNoticeTail;
    var behavior := FormatBehavior(letter.behavior.GetOr("good"));
    var santaLetterIntro := Intro(childName, behavior);
    var niceThing := letter.niceThing.GetOr("");
    var santaNiceThing := if niceThing != "" then NiceThingHead + niceThing + NiceThingTail else "";
    var wishes := letter.wishes.GetOr([]);
    var santaWishes :=
      if |wishes| > 0 then
        var wishesText := WishesText(wishes);
        if wishesText != "" then WishesHead + wishesText + WishesTail else ""
      else "";
    var snack := FormatSnack(letter.snack.GetOr("cookies"));
    var santaSnack := SnackHead + snack + SnackTail;
    Scripts(elfLetterNotice, santaLetterIntro, santaNiceThing, santaWishes, santaSnack)
  }

  /** The elf's notice names the child. */
  lemma ElfNoticeNamesChild(letter: Letter, childName: string)
    ensures Contains(GenerateLetterScripts(letter, childName).elfLetterNotice, childName)
  {
    ContainsMiddle(ElfNoticeHead, childName, ElfNoticeTail);
  }

  /** Santa's intro names the child. */
  lemma IntroNamesChild(letter: Letter, childName: string)
    ensures Contains(GenerateLetterScripts(letter, childName).santaLetterIntro, childName)
  {
  }

  /** Santa's intro gives the letter's behaviour as friendly text ("good" when absent). */
  lemma IntroMentionsBehavior(letter: Letter, childName: string)
    ensures Contains(GenerateLetterScripts(letter, childName).santaLetterIntro,
                     FormatBehavior(letter.behavior.GetOr("good")))
    ensures letter.behavior == None ==>
      Contains(GenerateLetterScripts(letter, childName).santaLetterIntro, "good")
  {
  }

  /** A nice thing, when given, is repeated verbatim. */
  lemma NiceThingMentioned(letter: Letter, childName: string)
    requires letter.niceThing.GetOr("") != ""
    ensures Contains(GenerateLetterScripts(letter, childName).santaNiceThing, letter.niceThing.value)
  {
    ContainsMiddle(NiceThingHead, letter.niceThing.value, NiceThingTail);
  }

  /** With a usable wish, the wishes line carries the wishes phrase. */
  lemma WishesMentioned(letter: Letter, childName: string)
    requires UsableWishes(letter.wishes.GetOr([])) != []
    ensures Contains(GenerateLetterScripts(letter, childName).santaWishes, WishesText(letter.wishes.value))
  {
    ContainsMiddle(WishesHead, WishesText(letter.wishes.value), WishesTail);
  }

  /** The snack line names the snack as friendly text ("cookies" when absent). */
  lemma SnackMentioned(letter: Letter, childName: string)
    ensures Contains(GenerateLetterScripts(letter, childName).santaSnack,
                     FormatSnack(letter.snack.GetOr("cookies")))
    ensures letter.snack == None ==>
      Contains(GenerateLetterScripts(letter, childName).santaSnack, "cookies")
  {
    ContainsMiddle(SnackHead, FormatSnack(letter.snack.GetOr("cookies")), SnackTail);
  }

  /** The scripts as the dictionary the source returns: exactly five keys. */
  function ScriptTable(s: Scripts): (table: map<string, string>)
    ensures table.Keys ==
      {"elf_letter_notice", "santa_letter_intro", "santa_nice_thing", "santa_wishes", "santa_snack"}
    ensures table["elf_letter_notice"] == s.elfLetterNotice
    ensures table["santa_letter_intro"] == s.santaLetterIntro
    ensures table["santa_nice_thing"] == s.santaNiceThing
    ensures table["santa_wishes"] == s.santaWishes
    ensures table["santa_snack"] == s.santaSnack
  {
    map[
      "elf_letter_notice" := s.elfLetterNotice,
      "santa_letter_intro" := s.santaLetterIntro,
      "santa_nice_thing" := s.santaNiceThing,
      "santa_wishes" := s.santaWishes,
      "santa_snack" := s.santaSnack]
  }
}
