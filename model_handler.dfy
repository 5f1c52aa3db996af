/**
 * Post-processing of the sound classifier (src/ai/model_handler.py): the label
 * catalogue, the mapping from a probability vector to a prediction, the mock
 * predictor that stands in whenever no network is available, top-k ranking,
 * and the loading steps whose failure switches the classifier to mock mode.
 * The network and its softmax are not modelled: their output is an input here.
 */
module ModelHandler {
  import opened Wrappers
  import opened Text
  import opened Dicts
  import opened Sequences
  import opened Checkpoints

  /** The 50 ESC-50 categories in the order of the network's outputs (sorted, as in training). */
  const ESC50_CLASSES: seq<string> :=
      ["airplane", "breathing", "brushing_teeth", "can_opening", "car_horn"]
    + ["cat", "chainsaw", "chirping_birds", "church_bells", "clapping"]
    + ["clock_alarm", "clock_tick", "coughing", "cow", "crackling_fire"]
    + ["crickets", "crow", "crying_baby", "dog", "door_wood_creaks"]
    + ["door_wood_knock", "drinking_sipping", "engine", "fireworks", "footsteps"]
    + ["frog", "glass_breaking", "hand_saw", "helicopter", "hen"]
    + ["insects", "keyboard_typing", "laughing", "mouse_click", "pig"]
    + ["pouring_water", "rain", "rooster", "sea_waves", "sheep"]
    + ["siren", "sneezing", "snoring", "thunderstorm", "toilet_flush"]
    + ["train", "vacuum_cleaner", "washing_machine", "water_drops", "wind"]

  /** The icon shown beside each label. */
  const SOUND_ICONS: map<string, string> :=
      map["dog" := "🐕", "rooster" := "🐓", "pig" := "🐷", "cow" := "🐄", "frog" := "🐸"]
    + map["cat" := "🐈", "hen" := "🐔", "insects" := "🦗", "sheep" := "🐑", "crow" := "🦅"]
    + map["rain" := "🌧️", "sea_waves" := "🌊", "crackling_fire" := "🔥", "crickets" := "🦗", "chirping_birds" := "🐦"]
    + map["water_drops" := "💧", "wind" := "💨", "pouring_water" := "🚰", "toilet_flush" := "🚽", "thunderstorm" := "⛈️"]
    + map["crying_baby" := "👶", "sneezing" := "🤧", "clapping" := "👏", "breathing" := "😮", "coughing" := "😷"]
    + map["footsteps" := "👣", "laughing" := "😂", "brushing_teeth" := "🪥", "snoring" := "😴", "drinking_sipping" := "🥤"]
    + map["door_wood_knock" := "🚪", "mouse_click" := "🖱️", "keyboard_typing" := "⌨️", "door_wood_creaks" := "🚪", "can_opening" := "🥫"]
    + map["washing_machine" := "🧺", "vacuum_cleaner" := "🧹", "clock_alarm" := "⏰", "clock_tick" := "🕐", "glass_breaking" := "🔨"]
    + map["helicopter" := "🚁", "chainsaw" := "🪚", "siren" := "🚨", "car_horn" := "🚗", "engine" := "🏎️"]
    + map["train" := "🚂", "church_bells" := "🔔", "airplane" := "✈️", "fireworks" := "🎆", "hand_saw" := "🪚"]

  const DEFAULT_ICON := "🔊"

  /** Labels that raise a visual notification. */
  const ALERT_SOUNDS: seq<string> := ["siren", "car_horn", "glass_breaking", "clock_alarm", "crying_baby", "fireworks"]

  /** Labels the mock predictor draws from. */
  const MOCK_CLASSES: seq<string> := ["dog", "cat", "rain", "siren", "keyboard_typing", "laughing"]

  lemma AscendingRow0()
    ensures forall i :: 0 <= i < 5 ==> LexLess(ESC50_CLASSES[i], ESC50_CLASSES[i + 1])
  {
    forall i | 0 <= i < 5 ensures LexLess(ESC50_CLASSES[i], ESC50_CLASSES[i + 1]) {
      if i == 0 {
        assert ESC50_CLASSES[0] == "airplane" && ESC50_CLASSES[1] == "breathing";
        assert LexLess("airplane", "breathing");
      } else if i == 1 {
        assert ESC50_CLASSES[1] == "breathing" && ESC50_CLASSES[2] == "brushing_teeth";
        assert LexLess("breathing", "brushing_teeth");
      } else if i == 2 {
        assert ESC50_CLASSES[2] == "brushing_teeth" && ESC50_CLASSES[3] == "can_opening";
        assert LexLess("brushing_teeth", "can_opening");
      } else if i == 3 {
        assert ESC50_CLASSES[3] == "can_opening" && ESC50_CLASSES[4] == "car_horn";
        assert LexLess("can_opening", "car_horn");
      } else {
        assert ESC50_CLASSES[4] == "car_horn" && ESC50_CLASSES[5] == "cat";
        assert LexLess("car_horn", "cat");
      }
    }
  }

  lemma AscendingRow1()
    ensures forall i :: 5 <= i < 10 ==> LexLess(ESC50_CLASSES[i], ESC50_CLASSES[i + 1])
  {
    forall i | 5 <= i < 10 ensures LexLess(ESC50_CLASSES[i], ESC50_CLASSES[i + 1]) {
      if i == 5 {
        assert ESC50_CLASSES[5] == "cat" && ESC50_CLASSES[6] == "chainsaw";
        assert LexLess("cat", "chainsaw");
      } else if i == 6 {
        assert ESC50_CLASSES[6] == "chainsaw" && ESC50_CLASSES[7] == "chirping_birds";
        assert LexLess("chainsaw", "chirping_birds");
      } else if i == 7 {
        assert ESC50_CLASSES[7] == "chirping_birds" && ESC50_CLASSES[8] == "church_bells";
        assert LexLess("chirping_birds", "church_bells");
      } else if i == 8 {
        assert ESC50_CLASSES[8] == "church_bells" && ESC50_CLASSES[9] == "clapping";
        assert LexLess("church_bells", "clapping");
      } else {
        assert ESC50_CLASSES[9] == "clapping" && ESC50_CLASSES[10] == "clock_alarm";
        assert LexLess("clapping", "clock_alarm");
      }
    }
  }

  lemma AscendingRow2()
    ensures forall i :: 10 <= i < 15 ==> LexLess(ESC50_CLASSES[i], ESC50_CLASSES[i + 1])
  {
    forall i | 10 <= i < 15 ensures LexLess(ESC50_CLASSES[i], ESC50_CLASSES[i + 1]) {
      if i == 10 {
        assert ESC50_CLASSES[10] == "clock_alarm" && ESC50_CLASSES[11] == "clock_tick";
        assert LexLess("clock_alarm", "clock_tick");
      } else if i == 11 {
        assert ESC50_CLASSES[11] == "clock_tick" && ESC50_CLASSES[12] == "coughing";
        assert LexLess("clock_tick", "coughing");
      } else if i == 12 {
        assert ESC50_CLASSES[12] == "coughing" && ESC50_CLASSES[13] == "cow";
        assert LexLess("coughing", "cow");
      } else if i == 13 {
        assert ESC50_CLASSES[13] == "cow" && ESC50_CLASSES[14] == "crackling_fire";
        assert LexLess("cow", "crackling_fire");
      } else {
        assert ESC50_CLASSES[14] == "crackling_fire" && ESC50_CLASSES[15] == "crickets";
        assert LexLess("crackling_fire", "crickets");
      }
    }
  }

  lemma AscendingRow3()
    ensures forall i :: 15 <= i < 20 ==> LexLess(ESC50_CLASSES[i], ESC50_CLASSES[i + 1])
  {
    forall i | 15 <= i < 20 ensures LexLess(ESC50_CLASSES[i], ESC50_CLASSES[i + 1]) {
      if i == 15 {
        assert ESC50_CLASSES[15] == "crickets" && ESC50_CLASSES[16] == "crow";
        assert LexLess("crickets", "crow");
      } else if i == 16 {
        assert ESC50_CLASSES[16] == "crow" && ESC50_CLASSES[17] == "crying_baby";
        assert LexLess("crow", "crying_baby");
      } else if i == 17 {
        assert ESC50_CLASSES[17] == "crying_baby" && ESC50_CLASSES[18] == "dog";
        assert LexLess("crying_baby", "dog");
      } else if i == 18 {
        assert ESC50_CLASSES[18] == "dog" && ESC50_CLASSES[19] == "door_wood_creaks";
        assert LexLess("dog", "door_wood_creaks");
      } else {
        assert ESC50_CLASSES[19] == "door_wood_creaks" && ESC50_CLASSES[20] == "door_wood_knock";
        assert LexLess("door_wood_creaks", "door_wood_knock");
      }
    }
  }

  lemma AscendingRow4()
    ensures forall i :: 20 <= i < 25 ==> LexLess(ESC50_CLASSES[i], ESC50_CLASSES[i + 1])
  {
    forall i | 20 <= i < 25 ensures LexLess(ESC50_CLASSES[i], ESC50_CLASSES[i + 1]) {
      if i == 20 {
        assert ESC50_CLASSES[20] == "door_wood_knock" && ESC50_CLASSES[21] == "drinking_sipping";
        assert LexLess("door_wood_knock", "drinking_sipping");
      } else if i == 21 {
        assert ESC50_CLASSES[21] == "drinking_sipping" && ESC50_CLASSES[22] == "engine";
        assert LexLess("drinking_sipping", "engine");
      } else if i == 22 {
        assert ESC50_CLASSES[22] == "engine" && ESC50_CLASSES[23] == "fireworks";
        assert LexLess("engine", "fireworks");
      } else if i == 23 {
        assert ESC50_CLASSES[23] == "fireworks" && ESC50_CLASSES[24] == "footsteps";
        assert LexLess("fireworks", "footsteps");
      } else {
        assert ESC50_CLASSES[24] == "footsteps" && ESC50_CLASSES[25] == "frog";
        assert LexLess("footsteps", "frog");
      }
    }
  }

  lemma AscendingRow5()
    ensures forall i :: 25 <= i < 30 ==> LexLess(ESC50_CLASSES[i], ESC50_CLASSES[i + 1])
  {
    forall i | 25 <= i < 30 ensures LexLess(ESC50_CLASSES[i], ESC50_CLASSES[i + 1]) {
      if i == 25 {
        assert ESC50_CLASSES[25] == "frog" && ESC50_CLASSES[26] == "glass_breaking";
        assert LexLess("frog", "glass_breaking");
      } else if i == 26 {
        assert ESC50_CLASSES[26] == "glass_breaking" && ESC50_CLASSES[27] == "hand_saw";
        assert LexLess("glass_breaking", "hand_saw");
      } else if i == 27 {
        assert ESC50_CLASSES[27] == "hand_saw" && ESC50_CLASSES[28] == "helicopter";
        assert LexLess("hand_saw", "helicopter");
      } else if i == 28 {
        assert ESC50_CLASSES[28] == "helicopter" && ESC50_CLASSES[29] == "hen";
        assert LexLess("helicopter", "hen");
      } else {
        assert ESC50_CLASSES[29] == "hen" && ESC50_CLASSES[30] == "insects";
        assert LexLess("hen", "insects");
      }
    }
  }

  lemma AscendingRow6()
    ensures forall i :: 30 <= i < 35 ==> LexLess(ESC50_CLASSES[i], ESC50_CLASSES[i + 1])
  {
    forall i | 30 <= i < 35 ensures LexLess(ESC50_CLASSES[i], ESC50_CLASSES[i + 1]) {
      if i == 30 {
        assert ESC50_CLASSES[30] == "insects" && ESC50_CLASSES[31] == "keyboard_typing";
        assert LexLess("insects", "keyboard_typing");
      } else if i == 31 {
        assert ESC50_CLASSES[31] == "keyboard_typing" && ESC50_CLASSES[32] == "laughing";
        assert LexLess("keyboard_typing", "laughing");
      } else if i == 32 {
        assert ESC50_CLASSES[32] == "laughing" && ESC50_CLASSES[33] == "mouse_click";
        assert LexLess("laughing", "mouse_click");
      } else if i == 33 {
        assert ESC50_CLASSES[33] == "mouse_click" && ESC50_CLASSES[34] == "pig";
        assert LexLess("mouse_click", "pig");
      } else {
        assert ESC50_CLASSES[34] == "pig" && ESC50_CLASSES[35] == "pouring_water";
        assert LexLess("pig", "pouring_water");
      }
    }
  }

  lemma AscendingRow7()
    ensures forall i :: 35 <= i < 40 ==> LexLess(ESC50_CLASSES[i], ESC50_CLASSES[i + 1])
  {
    forall i | 35 <= i < 40 ensures LexLess(ESC50_CLASSES[i], ESC50_CLASSES[i + 1]) {
      if i == 35 {
        assert ESC50_CLASSES[35] == "pouring_water" && ESC50_CLASSES[36] == "rain";
        assert LexLess("pouring_water", "rain");
      } else if i == 36 {
        assert ESC50_CLASSES[36] == "rain" && ESC50_CLASSES[37] == "rooster";
        assert LexLess("rain", "rooster");
      } else if i == 37 {
        assert ESC50_CLASSES[37] == "rooster" && ESC50_CLASSES[38] == "sea_waves";
        assert LexLess("rooster", "sea_waves");
      } else if i == 38 {
        assert ESC50_CLASSES[38] == "sea_waves" && ESC50_CLASSES[39] == "sheep";
        assert LexLess("sea_waves", "sheep");
      } else {
        assert ESC50_CLASSES[39] == "sheep" && ESC50_CLASSES[40] == "siren";
        assert LexLess("sheep", "siren");
      }
    }
  }

  lemma AscendingRow8()
    ensures forall i :: 40 <= i < 45 ==> LexLess(ESC50_CLASSES[i], ESC50_CLASSES[i + 1])
  {
    forall i | 40 <= i < 45 ensures LexLess(ESC50_CLASSES[i], ESC50_CLASSES[i + 1]) {
      if i == 40 {
        assert ESC50_CLASSES[40] == "siren" && ESC50_CLASSES[41] == "sneezing";
        assert LexLess("siren", "sneezing");
      } else if i == 41 {
        assert ESC50_CLASSES[41] == "sneezing" && ESC50_CLASSES[42] == "snoring";
        assert LexLess("sneezing", "snoring");
      } else if i == 42 {
        assert ESC50_CLASSES[42] == "snoring" && ESC50_CLASSES[43] == "thunderstorm";
        assert LexLess("snoring", "thunderstorm");
      } else if i == 43 {
        assert ESC50_CLASSES[43] == "thunderstorm" && ESC50_CLASSES[44] == "toilet_flush";
        assert LexLess("thunderstorm", "toilet_flush");
      } else {
        assert ESC50_CLASSES[44] == "toilet_flush" && ESC50_CLASSES[45] == "train";
        assert LexLess("toilet_flush", "train");
      }
    }
  }

  lemma AscendingRow9()
    ensures forall i :: 45 <= i < 49 ==> LexLess(ESC50_CLASSES[i], ESC50_CLASSES[i + 1])
  {
    forall i | 45 <= i < 49 ensures LexLess(ESC50_CLASSES[i], ESC50_CLASSES[i + 1]) {
      if i == 45 {
        assert ESC50_CLASSES[45] == "train" && ESC50_CLASSES[46] == "vacuum_cleaner";
        assert LexLess("train", "vacuum_cleaner");
      } else if i == 46 {
        assert ESC50_CLASSES[46] == "vacuum_cleaner" && ESC50_CLASSES[47] == "washing_machine";
        assert LexLess("vacuum_cleaner", "washing_machine");
      } else if i == 47 {
        assert ESC50_CLASSES[47] == "washing_machine" && ESC50_CLASSES[48] == "water_drops";
        assert LexLess("washing_machine", "water_drops");
      } else {
        assert ESC50_CLASSES[48] == "water_drops" && ESC50_CLASSES[49] == "wind";
        assert LexLess("water_drops", "wind");
      }
    }
  }

  lemma IconNames0()
    ensures forall l :: l in ["airplane", "breathing", "brushing_teeth", "can_opening", "car_horn"] ==> l in SOUND_ICONS
  {
  }

  lemma IconRow0()
    ensures forall i :: 0 <= i < 5 ==> ESC50_CLASSES[i] in SOUND_ICONS
  {
    IconNames0();
    assert ESC50_CLASSES[0] == "airplane" && ESC50_CLASSES[1] == "breathing" && ESC50_CLASSES[2] == "brushing_teeth" && ESC50_CLASSES[3] == "can_opening" && ESC50_CLASSES[4] == "car_horn";
  }

  lemma IconNames1()
    ensures forall l :: l in ["cat", "chainsaw", "chirping_birds", "church_bells", "clapping"] ==> l in SOUND_ICONS
  {
  }

  lemma IconRow1()
    ensures forall i :: 5 <= i < 10 ==> ESC50_CLASSES[i] in SOUND_ICONS
  {
    IconNames1();
    assert ESC50_CLASSES[5] == "cat" && ESC50_CLASSES[6] == "chainsaw" && ESC50_CLASSES[7] == "chirping_birds" && ESC50_CLASSES[8] == "church_bells" && ESC50_CLASSES[9] == "clapping";
  }

  lemma IconNames2()
    ensures forall l :: l in ["clock_alarm", "clock_tick", "coughing", "cow", "crackling_fire"] ==> l in SOUND_ICONS
  {
  }

  lemma IconRow2()
    ensures forall i :: 10 <= i < 15 ==> ESC50_CLASSES[i] in SOUND_ICONS
  {
    IconNames2();
    assert ESC50_CLASSES[10] == "clock_alarm" && ESC50_CLASSES[11] == "clock_tick" && ESC50_CLASSES[12] == "coughing" && ESC50_CLASSES[13] == "cow" && ESC50_CLASSES[14] == "crackling_fire";
  }

  lemma IconNames3()
    ensures forall l :: l in ["crickets", "crow", "crying_baby", "dog", "door_wood_creaks"] ==> l in SOUND_ICONS
  {
  }

  lemma IconRow3()
    ensures forall i :: 15 <= i < 20 ==> ESC50_CLASSES[i] in SOUND_ICONS
  {
    IconNames3();
    assert ESC50_CLASSES[15] == "crickets" && ESC50_CLASSES[16] == "crow" && ESC50_CLASSES[17] == "crying_baby" && ESC50_CLASSES[18] == "dog" && ESC50_CLASSES[19] == "door_wood_creaks";
  }

  lemma IconNames4()
    ensures forall l :: l in ["door_wood_knock", "drinking_sipping", "engine", "fireworks", "footsteps"] ==> l in SOUND_ICONS
  {
  }

  lemma IconRow4()
    ensures forall i :: 20 <= i < 25 ==> ESC50_CLASSES[i] in SOUND_ICONS
  {
    IconNames4();
    assert ESC50_CLASSES[20] == "door_wood_knock" && ESC50_CLASSES[21] == "drinking_sipping" && ESC50_CLASSES[22] == "engine" && ESC50_CLASSES[23] == "fireworks" && ESC50_CLASSES[24] == "footsteps";
  }

  lemma IconNames5()
    ensures forall l :: l in ["frog", "glass_breaking", "hand_saw", "helicopter", "hen"] ==> l in SOUND_ICONS
  {
  }

  lemma IconRow5()
    ensures forall i :: 25 <= i < 30 ==> ESC50_CLASSES[i] in SOUND_ICONS
  {
    IconNames5();
    assert ESC50_CLASSES[25] == "frog" && ESC50_CLASSES[26] == "glass_breaking" && ESC50_CLASSES[27] == "hand_saw" && ESC50_CLASSES[28] == "helicopter" && ESC50_CLASSES[29] == "hen";
  }

  lemma IconNames6()
    ensures forall l :: l in ["insects", "keyboard_typing", "laughing", "mouse_click", "pig"] ==> l in SOUND_ICONS
  {
  }

  lemma IconRow6()
    ensures forall i :: 30 <= i < 35 ==> ESC50_CLASSES[i] in SOUND_ICONS
  {
    IconNames6();
    assert ESC50_CLASSES[30] == "insects" && ESC50_CLASSES[31] == "keyboard_typing" && ESC50_CLASSES[32] == "laughing" && ESC50_CLASSES[33] == "mouse_click" && ESC50_CLASSES[34] == "pig";
  }

  lemma IconNames7()
    ensures forall l :: l in ["pouring_water", "rain", "rooster", "sea_waves", "sheep"] ==> l in SOUND_ICONS
  {
  }

  lemma IconRow7()
    ensures forall i :: 35 <= i < 40 ==> ESC50_CLASSES[i] in SOUND_ICONS
  {
    IconNames7();
    assert ESC50_CLASSES[35] == "pouring_water" && ESC50_CLASSES[36] == "rain" && ESC50_CLASSES[37] == "rooster" && ESC50_CLASSES[38] == "sea_waves" && ESC50_CLASSES[39] == "sheep";
  }

  lemma IconNames8()
    ensures forall l :: l in ["siren", "sneezing", "snoring", "thunderstorm", "toilet_flush"] ==> l in SOUND_ICONS
  {
  }

  lemma IconRow8()
    ensures forall i :: 40 <= i < 45 ==> ESC50_CLASSES[i] in SOUND_ICONS
  {
    IconNames8();
    assert ESC50_CLASSES[40] == "siren" && ESC50_CLASSES[41] == "sneezing" && ESC50_CLASSES[42] == "snoring" && ESC50_CLASSES[43] == "thunderstorm" && ESC50_CLASSES[44] == "toilet_flush";
  }

  lemma IconNames9()
    ensures forall l :: l in ["train", "vacuum_cleaner", "washing_machine", "water_drops", "wind"] ==> l in SOUND_ICONS
  {
  }

  lemma IconRow9()
    ensures forall i :: 45 <= i < 50 ==> ESC50_CLASSES[i] in SOUND_ICONS
  {
    IconNames9();
    assert ESC50_CLASSES[45] == "train" && ESC50_CLASSES[46] == "vacuum_cleaner" && ESC50_CLASSES[47] == "washing_machine" && ESC50_CLASSES[48] == "water_drops" && ESC50_CLASSES[49] == "wind";
  }

  /** The catalogue has 50 labels, each strictly below the next, so sorted and distinct, and each has an icon. */
  lemma CatalogueSorted()
    ensures |ESC50_CLASSES| == 50
    ensures StrictlyAscending(ESC50_CLASSES)
    ensures forall i, j :: 0 <= i < j < |ESC50_CLASSES| ==> ESC50_CLASSES[i] != ESC50_CLASSES[j]
    ensures forall l :: l in ESC50_CLASSES ==> l in SOUND_ICONS
  {
    AscendingRow0(); AscendingRow1(); AscendingRow2(); AscendingRow3(); AscendingRow4();
    AscendingRow5(); AscendingRow6(); AscendingRow7(); AscendingRow8(); AscendingRow9();
    IconRow0(); IconRow1(); IconRow2(); IconRow3(); IconRow4();
    IconRow5(); IconRow6(); IconRow7(); IconRow8(); IconRow9();
    forall i, j | 0 <= i < j < |ESC50_CLASSES| ensures ESC50_CLASSES[i] != ESC50_CLASSES[j] {
      AscendingPairs(ESC50_CLASSES, i, j);
    }
  }

  /** A catalogue label is shown with its own icon rather than the default one. */
  lemma CatalogueIcon(l: string)
    requires l in ESC50_CLASSES
    ensures l in SOUND_ICONS && Icon(l) == SOUND_ICONS[l]
  {
    CatalogueSorted();
  }

  /** Every mock label and every alert label is a catalogue label. */
  lemma MockAndAlertInCatalogue()
    ensures forall l :: l in MOCK_CLASSES ==> l in ESC50_CLASSES
    ensures forall l :: l in ALERT_SOUNDS ==> l in ESC50_CLASSES
  {
    assert ESC50_CLASSES[18] == "dog" && ESC50_CLASSES[5] == "cat" && ESC50_CLASSES[36] == "rain";
    assert ESC50_CLASSES[40] == "siren" && ESC50_CLASSES[31] == "keyboard_typing" && ESC50_CLASSES[32] == "laughing";
    assert ESC50_CLASSES[4] == "car_horn" && ESC50_CLASSES[26] == "glass_breaking" && ESC50_CLASSES[10] == "clock_alarm";
    assert ESC50_CLASSES[17] == "crying_baby" && ESC50_CLASSES[23] == "fireworks";
  }

  /** `SOUND_ICONS.get(sound, "🔊")`: a label without an icon gets the default one. */
  function Icon(sound: string): string {
    if sound in SOUND_ICONS then SOUND_ICONS[sound] else DEFAULT_ICON
  }

  /** The dict `predict` returns; `allProbs` is `None` exactly for a mock result. */
  datatype Prediction = Prediction(sound: string, confidence: real, icon: string, isAlert: bool, allProbs: Option<seq<real>>)

  /** One entry of a top-k list. */
  datatype Ranked = Ranked(sound: string, confidence: real, icon: string)

  /** What `get_top_k_predictions` returns: the single mock result, or a ranking. */
  datatype TopK = MockOnly(result: Prediction) | Ranking(entries: seq<Ranked>)

  /**
   * The values drawn by `random.choice(mock_classes)`, as an index, and by
   * `random.uniform(65, 95)`, as the fraction of the way from 65 to 95.
   */
  datatype MockDraw = MockDraw(choice: nat, fraction: real)

  predicate ValidDraw(draw: MockDraw) {
    draw.choice < |MOCK_CLASSES| && 0.0 <= draw.fraction <= 1.0
  }

  /** `_mock_predict` */
  function MockPredict(draw: MockDraw): (p: Prediction)
    requires ValidDraw(draw)
    ensures p.sound in MOCK_CLASSES && p.sound in ESC50_CLASSES
    ensures 65.0 <= p.confidence <= 95.0
    ensures p.allProbs.None?
    ensures p.icon == Icon(p.sound) && (p.isAlert <==> p.sound in ALERT_SOUNDS)
  {
    MockAndAlertInCatalogue();
    var sound := MOCK_CLASSES[draw.choice];
    Prediction(sound, 65.0 + 30.0 * draw.fraction, Icon(sound), sound in ALERT_SOUNDS, None)
  }

  /** `np.argmax`: the first index of a greatest element. */
  function ArgMax(xs: seq<real>): (i: nat)
    requires xs != []
    ensures i < |xs|
    ensures forall j :: 0 <= j < |xs| ==> xs[j] <= xs[i]
    ensures forall j :: 0 <= j < i ==> xs[j] < xs[i]
  {
    if |xs| == 1 then 0
    else
      var m := ArgMax(xs[..|xs| - 1]);
      if xs[|xs| - 1] > xs[m] then |xs| - 1 else m
  }

  /**
   * The prediction the real path of `predict` builds from the network's
   * probabilities, or the exception it raises: `np.argmax` of an empty vector
   * raises ValueError, an index past the catalogue raises IndexError.
   */
  function FromProbabilities(probs: seq<real>): (r: Result<Prediction, string>)
    ensures r.Ok? <==> probs != [] && ArgMax(probs) < |ESC50_CLASSES|
    ensures r.Ok? ==> r.value.sound == ESC50_CLASSES[ArgMax(probs)]
                      && r.value.confidence == 100.0 * probs[ArgMax(probs)]
                      && r.value.icon == Icon(r.value.sound)
                      && (r.value.isAlert <==> r.value.sound in ALERT_SOUNDS)
                      && r.value.allProbs == Some(probs)
    ensures r.Ok? ==> forall j :: 0 <= j < |probs| ==> 100.0 * probs[j] <= r.value.confidence
    ensures r.Ok? && (forall j :: 0 <= j < |probs| ==> 0.0 <= probs[j] <= 1.0) ==>
              0.0 <= r.value.confidence <= 100.0
  {
    if probs == [] then Err("ValueError")
    else
      var topIdx := ArgMax(probs);
      if topIdx >= |ESC50_CLASSES| then Err("IndexError")
      else
        var topLabel := ESC50_CLASSES[topIdx];
        Ok(Prediction(topLabel, 100.0 * probs[topIdx], Icon(topLabel), topLabel in ALERT_SOUNDS, Some(probs)))
  }

  /** `order` is what `np.argsort(probs)` may return: the indices of `probs`, each once, by ascending probability. */
  predicate IsArgsort(order: seq<nat>, probs: seq<real>) {
    && |order| == |probs|
    && (forall i :: 0 <= i < |order| ==> order[i] < |probs|)
    && (forall i, j :: 0 <= i < j < |order| ==> order[i] != order[j])
    && (forall y :: 0 <= y < |probs| ==> y in order)
    && (forall i, j :: 0 <= i < j < |order| ==> probs[order[i]] <= probs[order[j]])
  }

  /** `np.argsort(probs)[-k:][::-1]` */
  function TopIndices(order: seq<nat>, k: int): (top: seq<nat>)
    ensures |top| == |order| - ClampIndex(-k, |order|)
    ensures forall i :: 0 <= i < |top| ==> top[i] == order[|order| - 1 - i]
  {
    Reverse(SliceFrom(order, -k))
  }

  /** The top-k indices are distinct and come by non-increasing probability. */
  lemma TopIndicesDescending(order: seq<nat>, probs: seq<real>, k: int)
    requires IsArgsort(order, probs)
    ensures var top := TopIndices(order, k);
      && (forall i :: 0 <= i < |top| ==> top[i] < |probs|)
      && (forall i, j :: 0 <= i < j < |top| ==> top[i] != top[j] && probs[top[i]] >= probs[top[j]])
  {
    var top := TopIndices(order, k);
    var n := |order|;
    forall i, j | 0 <= i < j < |top| ensures top[i] != top[j] && probs[top[i]] >= probs[top[j]] {
      assert top[i] == order[n - 1 - i] && top[j] == order[n - 1 - j];
    }
  }

  /** The top-k indices are the argsort's entries from the slice start on. */
  lemma TopIndicesSuffix(order: seq<nat>, k: int)
    ensures forall j :: ClampIndex(-k, |order|) <= j < |order| ==> order[j] in TopIndices(order, k)
  {
    var top := TopIndices(order, k);
    var n := |order|;
    forall j | ClampIndex(-k, n) <= j < n ensures order[j] in top {
      assert top[n - 1 - j] == order[j];
    }
  }

  /** No index left out of the top-k has a higher probability than any index taken. */
  lemma TopIndicesDominate(order: seq<nat>, probs: seq<real>, k: int, x: nat, y: nat)
    requires IsArgsort(order, probs)
    requires x in TopIndices(order, k) && y < |probs| && y !in TopIndices(order, k)
    ensures probs[y] <= probs[x]
  {
    var top := TopIndices(order, k);
    var n := |order|;
    var a :| 0 <= a < |top| && top[a] == x;
    var p := n - 1 - a;
    assert order[p] == x && ClampIndex(-k, n) <= p;
    assert y in order;
    var b :| 0 <= b < n && order[b] == y;
    TopIndicesSuffix(order, k);
    assert b < p;
    assert probs[order[b]] <= probs[order[p]];
  }

  /**
   * The top-k indices: `k` of them for 1 <= k <= n (all for k = 0, n + k for a
   * negative k), distinct, by non-increasing probability, and none of the
   * indices left out has a higher probability than any index taken.
   */
  lemma TopIndicesRanked(order: seq<nat>, probs: seq<real>, k: int)
    requires IsArgsort(order, probs)
    ensures var top := TopIndices(order, k);
      && (1 <= k <= |probs| ==> |top| == k)
      && (k == 0 ==> |top| == |probs|)
      && (-|probs| <= k < 0 ==> |top| == |probs| + k)
      && (forall i :: 0 <= i < |top| ==> top[i] < |probs|)
      && (forall i, j :: 0 <= i < j < |top| ==> top[i] != top[j] && probs[top[i]] >= probs[top[j]])
      && (forall x, y :: x in top && 0 <= y < |probs| && y !in top ==> probs[y] <= probs[x])
  {
    TopIndicesDescending(order, probs, k);
    forall x, y | x in TopIndices(order, k) && 0 <= y < |probs| && y !in TopIndices(order, k)
      ensures probs[y] <= probs[x]
    {
      TopIndicesDominate(order, probs, k, x, y);
    }
  }

  /** The top-k entry for the catalogue index `idx`. */
  function RankedAt(classes: seq<string>, probs: seq<real>, idx: nat): Ranked
    requires idx < |probs| && idx < |classes|
  {
    Ranked(classes[idx], 100.0 * probs[idx], Icon(classes[idx]))
  }

  /**
   * A real-path ranking over the 50-way output: for 1 <= k <= 50 it has k
   * entries, with distinct catalogue labels, by non-increasing confidence, and
   * no label left out has a higher confidence than one taken.
   */
  lemma TopKRanking(probs: seq<real>, order: seq<nat>, k: int, entries: seq<Ranked>)
    requires IsArgsort(order, probs) && |probs| == |ESC50_CLASSES|
    requires |entries| == |TopIndices(order, k)|
    requires forall i :: 0 <= i < |entries| ==>
               TopIndices(order, k)[i] < |ESC50_CLASSES| && entries[i] == RankedAt(ESC50_CLASSES, probs, TopIndices(order, k)[i])
    ensures 1 <= k <= |ESC50_CLASSES| ==> |entries| == k
    ensures forall i :: 0 <= i < |entries| ==> entries[i].sound in ESC50_CLASSES
    ensures forall i, j :: 0 <= i < j < |entries| ==>
              entries[i].sound != entries[j].sound && entries[i].confidence >= entries[j].confidence
    ensures forall i, y :: 0 <= i < |entries| && 0 <= y < |probs| && y !in TopIndices(order, k) ==>
              100.0 * probs[y] <= entries[i].confidence
  {
    CatalogueSorted();
    RankingOver(ESC50_CLASSES, probs, order, k, entries);
  }

  /** The ranking properties over any list of distinct labels as long as the output. */
  lemma RankingOver(classes: seq<string>, probs: seq<real>, order: seq<nat>, k: int, entries: seq<Ranked>)
    requires IsArgsort(order, probs) && |probs| == |classes|
    requires forall i, j :: 0 <= i < j < |classes| ==> classes[i] != classes[j]
    requires |entries| == |TopIndices(order, k)|
    requires forall i :: 0 <= i < |entries| ==>
               TopIndices(order, k)[i] < |classes| && entries[i] == RankedAt(classes, probs, TopIndices(order, k)[i])
    ensures 1 <= k <= |classes| ==> |entries| == k
    ensures forall i :: 0 <= i < |entries| ==> entries[i].sound in classes
    ensures forall i, j :: 0 <= i < j < |entries| ==>
              entries[i].sound != entries[j].sound && entries[i].confidence >= entries[j].confidence
    ensures forall i, y :: 0 <= i < |entries| && 0 <= y < |probs| && y !in TopIndices(order, k) ==>
              100.0 * probs[y] <= entries[i].confidence
  {
    var top := TopIndices(order, k);
    TopIndicesRanked(order, probs, k);
    forall i, j | 0 <= i < j < |entries|
      ensures entries[i].sound != entries[j].sound && entries[i].confidence >= entries[j].confidence
    {
      assert top[i] != top[j];
      if top[i] < top[j] {
        assert classes[top[i]] != classes[top[j]];
      } else {
        assert classes[top[j]] != classes[top[i]];
      }
    }
    forall i, y | 0 <= i < |entries| && 0 <= y < |probs| && y !in top
      ensures 100.0 * probs[y] <= entries[i].confidence
    {
      assert top[i] in top;
    }
  }

  /**
   * What `_load_model` ends with: the state dict loaded into the network, or
   * the failure that switches the classifier to mock mode (a missing file, a
   * failing `torch.load`, a state dict that is not a dict, or keys that do not
   * match the network's, which `load_state_dict` rejects).
   */
  function LoadOutcome(fileExists: bool, checkpoint: Result<Obj, string>, modelKeys: set<string>): Result<Dict<string, Obj>, string> {
    if !fileExists then Err("FileNotFoundError")
    else
      match checkpoint
      case Err(e) => Err(e)
      case Ok(c) =>
        match Items(SelectStateDict(c))
        case Err(e) => Err(e)
        case Ok(items) =>
          match Rekey(items, StripModulePrefixKey)
          case Err(e) => Err(e)
          case Ok(stripped) =>
            if (set i | 0 <= i < |stripped| :: stripped[i].0) == modelKeys then Ok(stripped) else Err("RuntimeError")
  }

  /**
   * A checkpoint whose keys, after stripping `module.`, are exactly the
   * network's loads with every value under its stripped key; it fails only as
   * the lines above say.
   */
  lemma LoadOutcomeStrips(fileExists: bool, checkpoint: Result<Obj, string>, modelKeys: set<string>)
    ensures LoadOutcome(fileExists, checkpoint, modelKeys).Ok? ==>
      && fileExists && checkpoint.Ok? && SelectStateDict(checkpoint.value).Dict?
      && Rekey(SelectStateDict(checkpoint.value).items, StripModulePrefixKey)
           == LoadOutcome(fileExists, checkpoint, modelKeys)
    ensures fileExists && checkpoint.Ok? && SelectStateDict(checkpoint.value).Dict? ==>
      Rekey(SelectStateDict(checkpoint.value).items, StripModulePrefixKey).Ok?
  {
    if fileExists && checkpoint.Ok? && SelectStateDict(checkpoint.value).Dict? {
      RekeyFailsAtFirstBadKey(SelectStateDict(checkpoint.value).items, StripModulePrefixKey);
    }
  }

  class SoundClassifier {
    var useMock: bool
    /** The weights loaded into the network; `None` until a load succeeds. */
    var stateDict: Option<Dict<string, Obj>>

    constructor(useMock: bool, fileExists: bool, checkpoint: Result<Obj, string>, modelKeys: set<string>)
      ensures this.useMock <==> useMock || LoadOutcome(fileExists, checkpoint, modelKeys).Err?
      ensures stateDict == if !useMock && LoadOutcome(fileExists, checkpoint, modelKeys).Ok?
                           then Some(LoadOutcome(fileExists, checkpoint, modelKeys).value) else None
    {
      this.useMock := useMock;
      stateDict := None;
      new;
      if !useMock {
        LoadModel(fileExists, checkpoint, modelKeys);
      }
    }

    /** `_load_model`: any failure switches to mock mode; success keeps the mode and stores the weights. */
    method LoadModel(fileExists: bool, checkpoint: Result<Obj, string>, modelKeys: set<string>)
      modifies this
      ensures useMock == (old(useMock) || LoadOutcome(fileExists, checkpoint, modelKeys).Err?)
      ensures stateDict == if LoadOutcome(fileExists, checkpoint, modelKeys).Ok?
                           then Some(LoadOutcome(fileExists, checkpoint, modelKeys).value) else old(stateDict)
    {
      if !fileExists {
        useMock := true;
        return;
      }
      if checkpoint.Err? {
        useMock := true;
        return;
      }
      var stateDictObj := SelectStateDict(checkpoint.value);
      if stateDictObj.Tensor? {
        useMock := true;
        return;
      }
      var newStateDict := StripModulePrefix(stateDictObj.items);
      if (set i | 0 <= i < |newStateDict| :: newStateDict[i].0) != modelKeys {
        useMock := true;
        return;
      }
      stateDict := Some(newStateDict);
    }

    /**
     * `predict`. `outcome` is the softmax output of the network, or the
     * exception raised before it. A mock result comes back in mock mode and
     * whenever the real path raises, so `predict` itself never raises.
     */
    function Predict(outcome: Result<seq<real>, string>, draw: MockDraw): (p: Prediction)
      reads this
      requires ValidDraw(draw)
      ensures p.sound in ESC50_CLASSES
      ensures p.isAlert <==> p.sound in ALERT_SOUNDS
      ensures p.allProbs.None? <==> useMock || outcome.Err? || FromProbabilities(outcome.value).Err?
      ensures p.allProbs.None? ==> p == MockPredict(draw)
      ensures p.allProbs.Some? ==> FromProbabilities(outcome.value) == Ok(p)
    {
      if useMock then MockPredict(draw)
      else
        match outcome
        case Err(_) => MockPredict(draw)
        case Ok(probs) =>
          match FromProbabilities(probs)
          case Ok(p) => p
          case Err(_) => MockPredict(draw)
    }

    /**
     * `get_top_k_predictions`: the mock result alone in a list, or one entry per
     * top-k index, best first. An index past the catalogue raises IndexError.
     */
    method GetTopKPredictions(outcome: Result<seq<real>, string>, draw: MockDraw, order: seq<nat>, k: int := 5)
      returns (r: Result<TopK, string>)
      requires ValidDraw(draw)
      requires outcome.Ok? ==> IsArgsort(order, outcome.value)
      ensures Predict(outcome, draw).allProbs.None? ==> r == Ok(MockOnly(Predict(outcome, draw)))
      ensures Predict(outcome, draw).allProbs.Some? ==>
        var probs, top := outcome.value, TopIndices(order, k);
        && (r.Err? <==> exists i :: 0 <= i < |top| && top[i] >= |ESC50_CLASSES|)
        && (r.Ok? ==> r.value.Ranking? && |r.value.entries| == |top|
                      && forall i :: 0 <= i < |top| ==> top[i] < |probs| && top[i] < |ESC50_CLASSES|
                                                        && r.value.entries[i] == RankedAt(ESC50_CLASSES, probs, top[i]))
    {
      var result := Predict(outcome, draw);
      if result.allProbs.None? {
        return Ok(MockOnly(result));
      }
      var probs := result.allProbs.value;
      assert outcome.Ok? && probs == outcome.value;
      TopIndicesDescending(order, probs, k);
      var ranking := RankIndices(ESC50_CLASSES, probs, TopIndices(order, k));
      r := match ranking case Ok(entries) => Ok(Ranking(entries)) case Err(e) => Err(e);
    }
  }

  /** The loop of `get_top_k_predictions` over the chosen indices, naming each by the catalogue `classes`. */
  method RankIndices(classes: seq<string>, probs: seq<real>, topKIdx: seq<nat>) returns (r: Result<seq<Ranked>, string>)
    requires forall i :: 0 <= i < |topKIdx| ==> topKIdx[i] < |probs|
    ensures r.Err? <==> exists i :: 0 <= i < |topKIdx| && topKIdx[i] >= |classes|
    ensures r.Ok? ==> |r.value| == |topKIdx|
    ensures r.Ok? ==> forall i :: 0 <= i < |topKIdx| ==>
                        topKIdx[i] < |classes| && r.value[i] == RankedAt(classes, probs, topKIdx[i])
  {
    var predictions: seq<Ranked> := [];
    for i := 0 to |topKIdx|
      invariant |predictions| == i
      invariant forall j :: 0 <= j < i ==> topKIdx[j] < |classes|
      invariant forall j :: 0 <= j < i ==> predictions[j] == RankedAt(classes, probs, topKIdx[j])
    {
      var idx := topKIdx[i];
      if idx >= |classes| {
        return Err("IndexError");
      }
      var sound := classes[idx];
      var entry := Ranked(sound, 100.0 * probs[idx], Icon(sound));
      assert entry == RankedAt(classes, probs, idx);
      predictions := predictions + [entry];
    }
    return Ok(predictions);
  }
}
