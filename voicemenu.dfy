/**
 * The main menu driven by voice: a transcript is normalised, searched for a
 * keyword, and the matching label is highlighted before its action runs.
 */
module VoiceMenu {
  import opened Strings
  import opened World

  datatype Color = Rgba(r: real, g: real, b: real, a: real)

  /** The three menu entries. */
  datatype Command = StartGame | OpenOptions | Quit

  /** What a menu action does outside the menu. */
  datatype Effect = LoadScene(scene: string) | LogOpenOptions | QuitApplication

  /** The transcript as matched: "." and "!" removed, then trimmed. */
  function Normalized(text: string): (r: string)
    ensures '.' !in r && '!' !in r
    ensures forall x :: x in r ==> x in text
    ensures r == [] || (!IsWhiteSpace(r[0]) && !IsWhiteSpace(r[|r| - 1]))
  {
    Trim(Remove(Remove(text, '.'), '!'))
  }

  /** Normalising keeps every occurrence of a word without "." or "!" and without whitespace at its ends. */
  lemma NormalizedKeepsWord(text: string, w: string)
    requires Contains(text, w) && '.' !in w && '!' !in w
    requires w != [] && !IsWhiteSpace(w[0]) && !IsWhiteSpace(w[|w| - 1])
    ensures Contains(Normalized(text), w)
  {
    RemoveKeepsNeedle(text, w, '.');
    RemoveKeepsNeedle(Remove(text, '.'), w, '!');
    TrimKeepsNeedle(Remove(Remove(text, '.'), '!'), w);
  }

  /** The four keywords `ProcessCommand` looks for. */
  predicate IsKeyword(k: string)
  {
    k == "start" || k == "option" || k == "exit" || k == "quit"
  }

  /** Normalising never destroys a keyword the transcript already contains. */
  lemma NormalizedKeepsKeywords(text: string, k: string)
    requires IsKeyword(k)
    ensures Contains(text, k) ==> Contains(Normalized(text), k)
  {
    if Contains(text, k) {
      assert k[0] in "soeq" && k[|k| - 1] in "tnq" by {
        if k == "start" {} else if k == "option" {} else if k == "exit" {} else {}
      }
      assert '.' !in k && '!' !in k by {
        if k == "start" {} else if k == "option" {} else if k == "exit" {} else {}
      }
      NormalizedKeepsWord(text, k);
    }
  }

  /**
   * The keyword test of `ProcessCommand`, by substring: "start" first, then
   * "option", then "exit" or "quit".
   */
  function Classify(text: string): Option<Command>
  {
    if Contains(text, "start") then Some(StartGame)
    else if Contains(text, "option") then Some(OpenOptions)
    else if Contains(text, "exit") || Contains(text, "quit") then Some(Quit)
    else None
  }

  /** Each entry is recognised exactly when its keyword is present and no keyword of higher priority is. */
  lemma ClassifyByPriority(text: string)
    ensures Classify(text) == Some(StartGame) <==> Contains(text, "start")
    ensures Classify(text) == Some(OpenOptions) <==> !Contains(text, "start") && Contains(text, "option")
    ensures Classify(text) == Some(Quit) <==>
      !Contains(text, "start") && !Contains(text, "option") && (Contains(text, "exit") || Contains(text, "quit"))
  {
  }

  /** With none of the keywords, nothing is recognised. */
  lemma ClassifyNoneIffNoKeyword(text: string)
    ensures Classify(text) == None <==>
      !Contains(text, "start") && !Contains(text, "option") && !Contains(text, "exit") && !Contains(text, "quit")
  {
  }

  /** The action behind each entry. */
  function EffectOf(c: Command): Effect
  {
    match c
    case StartGame => LoadScene("SampleScene")
    case OpenOptions => LogOpenOptions
    case Quit => QuitApplication
  }

  /** A transcript naming both "exit" and "start" starts the game. */
  lemma StartBeatsExit(a: string, b: string)
    ensures Classify(a + "exit" + b + "start") == Some(StartGame)
  {
    var s := a + "exit" + b + "start";
    assert OccursAt(s, "start", |a + "exit" + b|) by {
      assert s[|a + "exit" + b|..|s|] == "start";
    }
    ContainsAt(s, "start", |a + "exit" + b|);
  }

  class MenuLabel {
    var color: Color

    constructor (color: Color)
      ensures this.color == color
    {
      this.color := color;
    }
  }

  class VoiceMenuController {
    const startText: MenuLabel
    const optionsText: MenuLabel
    const exitText: MenuLabel
    const highlightColor: Color
    var defaultColor: Color
    /** The actions invoked so far, in order. */
    var effects: seq<Effect>

    constructor (startText: MenuLabel, optionsText: MenuLabel, exitText: MenuLabel, highlightColor: Color)
      ensures this.startText == startText && this.optionsText == optionsText && this.exitText == exitText
      ensures this.highlightColor == highlightColor
      ensures defaultColor == Rgba(1.0, 1.0, 1.0, 1.0) && effects == []
    {
      this.startText := startText;
      this.optionsText := optionsText;
      this.exitText := exitText;
      this.highlightColor := highlightColor;
      defaultColor := Rgba(1.0, 1.0, 1.0, 1.0);
      effects := [];
    }

    /** The label of each entry. */
    function Target(c: Command): MenuLabel
    {
      match c
      case StartGame => startText
      case OpenOptions => optionsText
      case Quit => exitText
    }

    /** The colour a label has after a command: highlighted iff it is the command's label. */
    function ColorAfter(l: MenuLabel, c: Option<Command>): Color
      reads this
    {
      if c.Some? && Target(c.value) == l then highlightColor else defaultColor
    }

    /**
     * After any command, when the three labels are distinct objects and the
     * highlight differs from the default colour, at most one label shows the
     * highlight.
     */
    lemma AtMostOneHighlighted(c: Option<Command>)
      requires startText != optionsText && startText != exitText && optionsText != exitText
      requires highlightColor != defaultColor
      ensures (if ColorAfter(startText, c) == highlightColor then 1 else 0)
              + (if ColorAfter(optionsText, c) == highlightColor then 1 else 0)
              + (if ColorAfter(exitText, c) == highlightColor then 1 else 0) <= 1
    {
    }

    /** `Start`: the default colour is taken from the start label. */
    method Start()
      modifies this`defaultColor
      ensures defaultColor == startText.color
    {
      defaultColor := startText.color;
    }

    /** `ResetColors`: every label back to the default colour. */
    method ResetColors()
      modifies startText, optionsText, exitText
      ensures startText.color == defaultColor && optionsText.color == defaultColor && exitText.color == defaultColor
    {
      startText.color := defaultColor;
      optionsText.color := defaultColor;
      exitText.color := defaultColor;
    }

    /** `HighlightAndAction`: the label is highlighted, then the action runs. */
    method HighlightAndAction(target: MenuLabel, action: Effect)
      modifies target, this`effects
      ensures target.color == highlightColor
      ensures effects == old(effects) + [action]
    {
      target.color := highlightColor;
      effects := effects + [action];
    }

    /**
     * `ProcessCommand`: after normalising, all labels are reset; then the
     * label of the first keyword by priority is highlighted and its action
     * run.  With no keyword nothing else happens.
     */
    method ProcessCommand(text: string)
      modifies startText, optionsText, exitText, this`effects
      ensures var c := Classify(Normalized(text));
        startText.color == ColorAfter(startText, c)
        && optionsText.color == ColorAfter(optionsText, c)
        && exitText.color == ColorAfter(exitText, c)
        && effects == old(effects) + (if c.Some? then [EffectOf(c.value)] else [])
    {
      var t := Normalized(text);
      Respond(Classify(t));
    }

    /** The part of `ProcessCommand` after the keyword test, for the command `c` found (if any). */
    method Respond(c: Option<Command>)
      modifies startText, optionsText, exitText, this`effects
      ensures startText.color == ColorAfter(startText, c)
      ensures optionsText.color == ColorAfter(optionsText, c)
      ensures exitText.color == ColorAfter(exitText, c)
      ensures effects == old(effects) + (if c.Some? then [EffectOf(c.value)] else [])
    {
      ResetColors();
      if c.Some? {
        HighlightAndAction(Target(c.value), EffectOf(c.value));
      }
    }

    /** The transcript handed over by the recogniser is lowercased before processing. */
    method OnTranscriptionReady(result: string)
      modifies startText, optionsText, exitText, this`effects
      ensures var c := Classify(Normalized(ToLower(result)));
        startText.color == ColorAfter(startText, c)
        && optionsText.color == ColorAfter(optionsText, c)
        && exitText.color == ColorAfter(exitText, c)
        && effects == old(effects) + (if c.Some? then [EffectOf(c.value)] else [])
    {
      ProcessCommand(ToLower(result));
    }
  }
}
