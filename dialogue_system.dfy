/** The dialogue box that pauses play until the player confirms, and the bosses' lines in
    Shipibo-Conibo with their Spanish translation. */
module DialogueSystem {
  import opened Events

  /** The keys that close a dialogue: space, return and Z. */
  predicate Confirms(e: Event) {
    e.KeyDown? && (e.key == Space || e.key == Return || e.key == Z)
  }

  class DialogueBox {
    var active: bool
    var shipiboText: string
    var spanishText: string
    var speakerName: string
    var waitingForInput: bool

    /** A closed, empty box. */
    constructor ()
      ensures !active && !waitingForInput
      ensures shipiboText == "" && spanishText == "" && speakerName == ""
    {
      active := false;
      shipiboText := "";
      spanishText := "";
      speakerName := "";
      waitingForInput := false;
    }

    /** Opens the box with a line, its translation and the speaker, and waits for input. */
    method Show(shipibo: string, spanish: string, speaker: string)
      modifies this
      ensures active && waitingForInput
      ensures shipiboText == shipibo && spanishText == spanish && speakerName == speaker
    {
      active := true;
      shipiboText := shipibo;
      spanishText := spanish;
      speakerName := speaker;
      waitingForInput := true;
    }

    /** Reads the frame's events: an open box closes at the first confirming key press and
        the result says the dialogue is complete; a closed box, or a frame without such a
        press, changes nothing and gives false. The texts stay either way. */
    method Update(events: seq<Event>) returns (done: bool)
      modifies this
      ensures done <==> old(active) && exists k :: 0 <= k < |events| && Confirms(events[k])
      ensures done ==> !active && !waitingForInput
      ensures !done ==> active == old(active) && waitingForInput == old(waitingForInput)
      ensures shipiboText == old(shipiboText) && spanishText == old(spanishText) && speakerName == old(speakerName)
    {
      if !active {
        return false;
      }
      var i := 0;
      while i < |events|
        invariant 0 <= i <= |events|
        invariant forall k :: 0 <= k < i ==> !Confirms(events[k])
      {
        var event := events[i];
        if event.KeyDown? {
          if event.key == Space || event.key == Return || event.key == Z {
            active := false;
            waitingForInput := false;
            return true;
          }
        }
        i := i + 1;
      }
      return false;
    }
  }

  // ---------------------------------------------------------------------------
  // The lines

  /** A line in Shipibo-Conibo and its Spanish translation. */
  datatype Line = Line(shipibo: string, spanish: string)

  /** The lines of each boss, by boss key and moment. */
  const Dialogues: map<string, map<string, Line>> := map[
    "yacuruna" := map[
      "intro" := Line("Eara Yacuruna, yoyo noko jakon", "Yo soy Yacuruna, guardián de las aguas"),
      "defeat" := Line("Ea yoshtai... Jaskaka metsa ikax", "Me has vencido... Pero la selva es eterna")],
    "chullachaqui" := map[
      "intro" := Line("Eara Chullachaqui, bake shipash jakon", "Yo soy Chullachaqui, el que confunde los caminos"),
      "defeat" := Line("Ea yoshtai... Mesko jaskaitai", "Me has vencido... Eres muy fuerte")],
    "yacumama" := map[
      "intro" := Line("Eara Yacumama, yoyo rono mama", "Yo soy Yacumama, la madre serpiente"),
      "revival" := Line("¡Ea jakonbaon betan kopi yoibaon!", "¡Invocaré a mis hermanos caídos!"),
      "defeat" := Line("Joia... ea pakoti yoshtai bena...", "Así que... esta es mi derrota verdadera...")]
  ]

  /** A character in lower case: the letters A to Z become a to z, everything else stays. */
  function LowerChar(c: char): char {
    if 'A' <= c <= 'Z' then (c as int + 32) as char else c
  }

  /** A string in lower case, character by character. */
  function Lower(s: string): (r: string)
    ensures |r| == |s|
    decreases |s|
  {
    if s == [] then [] else [LowerChar(s[0])] + Lower(s[1..])
  }

  /** Lowering keeps each position's character or turns its capital into the small letter,
      and lowering twice is lowering once. */
  lemma {:induction false} LowerShape(s: string)
    ensures forall i :: 0 <= i < |s| ==> Lower(s)[i] == LowerChar(s[i])
    ensures forall i :: 0 <= i < |s| ==> !('A' <= Lower(s)[i] <= 'Z')
    ensures Lower(Lower(s)) == Lower(s)
    decreases |s|
  {
    if s != [] {
      LowerShape(s[1..]);
      assert Lower(Lower(s)) == [LowerChar(LowerChar(s[0]))] + Lower(Lower(s[1..]));
      forall i | 0 <= i < |s|
        ensures Lower(s)[i] == LowerChar(s[i])
      {
        if i > 0 {
          assert Lower(s)[i] == Lower(s[1..])[i - 1];
        }
      }
    }
  }

  /** The fallback pair when a boss or a moment is unknown. */
  const Unknown: (string, string) := ("...", "...")

  /** The line of a boss at a moment: the boss's name is looked up in lower case, the
      moment as given; anything not in the table gives "..." twice. */
  function GetDialogue(bossName: string, moment: string): (r: (string, string))
    ensures Lower(bossName) in Dialogues && moment in Dialogues[Lower(bossName)] ==>
      r == (Dialogues[Lower(bossName)][moment].shipibo, Dialogues[Lower(bossName)][moment].spanish)
    ensures !(Lower(bossName) in Dialogues && moment in Dialogues[Lower(bossName)]) ==> r == Unknown
  {
    var bossKey := Lower(bossName);
    if bossKey in Dialogues && moment in Dialogues[bossKey] then
      var dialogue := Dialogues[bossKey][moment];
      (dialogue.shipibo, dialogue.spanish)
    else Unknown
  }

  /** No line of the table is the fallback, so a result other than "..." means the lookup
      succeeded. */
  lemma {:induction false} LinesAreNotFallback()
    ensures forall b, m | b in Dialogues && m in Dialogues[b] ::
      (Dialogues[b][m].shipibo, Dialogues[b][m].spanish) != Unknown
  {
  }

  /** Every boss has an intro and a defeat line; only Yacumama has a revival line; the
      bosses are exactly the three. */
  lemma {:induction false} TableShape()
    ensures Dialogues.Keys == {"yacuruna", "chullachaqui", "yacumama"}
    ensures forall b | b in Dialogues :: "intro" in Dialogues[b] && "defeat" in Dialogues[b]
    ensures forall b | b in Dialogues :: "revival" in Dialogues[b] <==> b == "yacumama"
  {
  }

  /** Asking for a revival line succeeds exactly for the name Yacumama, written in any mix of
      upper- and lower-case letters. */
  lemma {:induction false} OnlyYacumamaRevives(bossName: string)
    ensures GetDialogue(bossName, "revival") != Unknown <==> Lower(bossName) == "yacumama"
  {
    TableShape();
    LinesAreNotFallback();
  }

  /** A string without capitals is its own lower case. */
  lemma {:induction false} LowerKeeps(s: string)
    requires forall i :: 0 <= i < |s| ==> !('A' <= s[i] <= 'Z')
    ensures Lower(s) == s
    decreases |s|
  {
    if s != [] {
      LowerKeeps(s[1..]);
    }
  }

  /** Yacumama's revival line, under any spelling of her name. */
  lemma {:induction false} RevivalLine(bossName: string)
    requires Lower(bossName) == "yacumama"
    ensures GetDialogue(bossName, "revival") ==
      ("¡Ea jakonbaon betan kopi yoibaon!", "¡Invocaré a mis hermanos caídos!")
  {
  }

  /** Moments are matched as written: a capitalised moment finds nothing, whatever the boss. */
  lemma {:induction false} MomentsAreCaseSensitive(bossName: string)
    ensures GetDialogue(bossName, "INTRO") == Unknown && GetDialogue(bossName, "Defeat") == Unknown
  {
  }
}
