/**
 * The sound reference library (src/ui/sound_library.py): a fixed catalogue of
 * the 50 sounds in five categories of ten, each with its English name and a
 * Vietnamese label, and the search that filters it. Icons, colours and the
 * tab and card widgets are presentation and are not modelled.
 */
module SoundLibrary {
  import opened Wrappers
  import opened Text
  import opened Dicts
  import opened ModelHandler

  /** One catalogue entry: the ESC-50 name and its Vietnamese label. */
  datatype Sound = Sound(name: string, vi: string)

  // ---- the catalogue with its Vietnamese labels as intended ----

  const ANIMALS: seq<Sound> :=
      [Sound("dog", "Chó sủa"), Sound("rooster", "Gà trống gáy"), Sound("pig", "Lợn kêu"), Sound("cow", "Bò kêu"), Sound("frog", "Ếch kêu")]
    + [Sound("cat", "Mèo kêu"), Sound("hen", "Gà mái"), Sound("insects", "Côn trùng"), Sound("sheep", "Cừu kêu"), Sound("crow", "Quạ kêu")]

  const NATURAL_WATER: seq<Sound> :=
      [Sound("rain", "Tiếng mưa"), Sound("sea_waves", "Sóng biển"), Sound("crackling_fire", "Lửa cháy"), Sound("crickets", "Dế kêu"), Sound("chirping_birds", "Chim hót")]
    + [Sound("water_drops", "Giọt nước"), Sound("wind", "Tiếng gió"), Sound("thunderstorm", "Bão tố"), Sound("pouring_water", "Nước đổ"), Sound("toilet_flush", "Xả toilet")]

  const HUMAN: seq<Sound> :=
      [Sound("crying_baby", "Trẻ em khóc"), Sound("sneezing", "Hắt hơi"), Sound("clapping", "Vỗ tay"), Sound("breathing", "Hơi thở"), Sound("coughing", "Ho")]
    + [Sound("footsteps", "Bước chân"), Sound("laughing", "Cười"), Sound("brushing_teeth", "Đánh răng"), Sound("snoring", "Ngáy"), Sound("drinking_sipping", "Uống nước")]

  const DOMESTIC: seq<Sound> :=
      [Sound("door_wood_knock", "Gõ cửa"), Sound("mouse_click", "Click chuột"), Sound("keyboard_typing", "Gõ phím"), Sound("door_wood_creaks", "Cửa kêu cót két"), Sound("can_opening", "Mở lon")]
    + [Sound("washing_machine", "Máy giặt"), Sound("vacuum_cleaner", "Máy hút bụi"), Sound("clock_alarm", "Chuông báo thức"), Sound("glass_breaking", "Vỡ kính"), Sound("clock_tick", "Đồng hồ tích tắc")]

  const URBAN: seq<Sound> :=
      [Sound("helicopter", "Trực thăng"), Sound("chainsaw", "Cưa máy"), Sound("siren", "Còi hú"), Sound("car_horn", "Còi xe"), Sound("engine", "Động cơ")]
    + [Sound("train", "Tàu hỏa"), Sound("church_bells", "Chuông nhà thờ"), Sound("airplane", "Máy bay"), Sound("fireworks", "Pháo hoa"), Sound("hand_saw", "Cưa tay")]

  /** `SOUND_DATABASE`: the categories in display order. */
  const SOUND_DATABASE: Dict<string, seq<Sound>> := [
    ("Animals", ANIMALS),
    ("Natural/Water", NATURAL_WATER),
    ("Human", HUMAN),
    ("Domestic", DOMESTIC),
    ("Urban", URBAN)
  ]

  /** The entries of every category, in catalogue order. */
  const ALL_SOUNDS: seq<Sound> := ANIMALS + NATURAL_WATER + HUMAN + DOMESTIC + URBAN

  // ---- the Vietnamese labels as the source file spells them ----

  const ANIMALS_AS_WRITTEN: seq<Sound> :=
      [Sound("dog", "Ch√≥ s·ªßa"), Sound("rooster", "G√† tr·ªëng g√°y"), Sound("pig", "L·ª£n k√™u"), Sound("cow", "B√≤ k√™u"), Sound("frog", "·∫æch k√™u")]
    + [Sound("cat", "M√®o k√™u"), Sound("hen", "G√† m√°i"), Sound("insects", "C√¥n tr√πng"), Sound("sheep", "C·ª´u k√™u"), Sound("crow", "Qu·∫° k√™u")]

  const NATURAL_WATER_AS_WRITTEN: seq<Sound> :=
      [Sound("rain", "Ti·∫øng m∆∞a"), Sound("sea_waves", "S√≥ng bi·ªÉn"), Sound("crackling_fire", "L·ª≠a ch√°y"), Sound("crickets", "D·∫ø k√™u"), Sound("chirping_birds", "Chim h√≥t")]
    + [Sound("water_drops", "Gi·ªçt n∆∞·ªõc"), Sound("wind", "Ti·∫øng gi√≥"), Sound("thunderstorm", "B√£o t·ªë"), Sound("pouring_water", "N∆∞·ªõc ƒë·ªï"), Sound("toilet_flush", "X·∫£ toilet")]

  const HUMAN_AS_WRITTEN: seq<Sound> :=
      [Sound("crying_baby", "Tr·∫ª em kh√≥c"), Sound("sneezing", "H·∫Øt h∆°i"), Sound("clapping", "V·ªó tay"), Sound("breathing", "H∆°i th·ªü"), Sound("coughing", "Ho")]
    + [Sound("footsteps", "B∆∞·ªõc ch√¢n"), Sound("laughing", "C∆∞·ªùi"), Sound("brushing_teeth", "ƒê√°nh rƒÉng"), Sound("snoring", "Ng√°y"), Sound("drinking_sipping", "U·ªëng n∆∞·ªõc")]

  const DOMESTIC_AS_WRITTEN: seq<Sound> :=
      [Sound("door_wood_knock", "G√µ c·ª≠a"), Sound("mouse_click", "Click chu·ªôt"), Sound("keyboard_typing", "G√µ ph√≠m"), Sound("door_wood_creaks", "C·ª≠a k√™u c√≥t k√©t"), Sound("can_opening", "M·ªü lon")]
    + [Sound("washing_machine", "M√°y gi·∫∑t"), Sound("vacuum_cleaner", "M√°y h√∫t b·ª•i"), Sound("clock_alarm", "Chu√¥ng b√°o th·ª©c"), Sound("glass_breaking", "V·ª° k√≠nh"), Sound("clock_tick", "ƒê·ªìng h·ªì t√≠ch t·∫Øc")]

  const URBAN_AS_WRITTEN: seq<Sound> :=
      [Sound("helicopter", "Tr·ª±c thƒÉng"), Sound("chainsaw", "C∆∞a m√°y"), Sound("siren", "C√≤i h√∫"), Sound("car_horn", "C√≤i xe"), Sound("engine", "ƒê·ªông c∆°")]
    + [Sound("train", "T√†u h·ªèa"), Sound("church_bells", "Chu√¥ng nh√† th·ªù"), Sound("airplane", "M√°y bay"), Sound("fireworks", "Ph√°o hoa"), Sound("hand_saw", "C∆∞a tay")]

  const SOUND_DATABASE_AS_WRITTEN: Dict<string, seq<Sound>> := [
    ("Animals", ANIMALS_AS_WRITTEN),
    ("Natural/Water", NATURAL_WATER_AS_WRITTEN),
    ("Human", HUMAN_AS_WRITTEN),
    ("Domestic", DOMESTIC_AS_WRITTEN),
    ("Urban", URBAN_AS_WRITTEN)
  ]

  /** For each library entry, the position of its name in ESC50_CLASSES. */
  const CATALOGUE_POSITION: seq<nat> :=
      [18, 37, 34, 13, 25]
    + [5, 29, 30, 39, 16]
    + [36, 38, 14, 15, 7]
    + [48, 49, 43, 35, 44]
    + [17, 41, 9, 1, 12]
    + [24, 32, 2, 42, 21]
    + [20, 33, 31, 19, 3]
    + [47, 46, 10, 26, 11]
    + [28, 6, 40, 4, 22]
    + [45, 8, 0, 23, 27]

  /** For each catalogue position, the library entry that names it. */
  const LIBRARY_POSITION: seq<nat> :=
      [47, 23, 27, 34, 43]
    + [5, 41, 14, 46, 22]
    + [37, 39, 24, 3, 12]
    + [13, 9, 20, 0, 33]
    + [30, 29, 44, 48, 25]
    + [4, 38, 49, 40, 6]
    + [7, 32, 26, 31, 2]
    + [18, 10, 1, 11, 8]
    + [42, 21, 28, 17, 19]
    + [45, 36, 35, 15, 16]

  lemma LibraryRow0()
    ensures forall k :: 0 <= k < 5 ==>
              CATALOGUE_POSITION[k] < 50 && ESC50_CLASSES[CATALOGUE_POSITION[k]] == ALL_SOUNDS[k].name
              && LIBRARY_POSITION[CATALOGUE_POSITION[k]] == k
  {
    assert ALL_SOUNDS[0].name == "dog";
    assert CATALOGUE_POSITION[0] == 18;
    assert ESC50_CLASSES[18] == "dog";
    assert LIBRARY_POSITION[18] == 0;
    assert ALL_SOUNDS[1].name == "rooster";
    assert CATALOGUE_POSITION[1] == 37;
    assert ESC50_CLASSES[37] == "rooster";
    assert LIBRARY_POSITION[37] == 1;
    assert ALL_SOUNDS[2].name == "pig";
    assert CATALOGUE_POSITION[2] == 34;
    assert ESC50_CLASSES[34] == "pig";
    assert LIBRARY_POSITION[34] == 2;
    assert ALL_SOUNDS[3].name == "cow";
    assert CATALOGUE_POSITION[3] == 13;
    assert ESC50_CLASSES[13] == "cow";
    assert LIBRARY_POSITION[13] == 3;
    assert ALL_SOUNDS[4].name == "frog";
    assert CATALOGUE_POSITION[4] == 25;
    assert ESC50_CLASSES[25] == "frog";
    assert LIBRARY_POSITION[25] == 4;
  }

  lemma LibraryRow1()
    ensures forall k :: 5 <= k < 10 ==>
              CATALOGUE_POSITION[k] < 50 && ESC50_CLASSES[CATALOGUE_POSITION[k]] == ALL_SOUNDS[k].name
              && LIBRARY_POSITION[CATALOGUE_POSITION[k]] == k
  {
    assert ALL_SOUNDS[5].name == "cat";
    assert CATALOGUE_POSITION[5] == 5;
    assert ESC50_CLASSES[5] == "cat";
    assert LIBRARY_POSITION[5] == 5;
    assert ALL_SOUNDS[6].name == "hen";
    assert CATALOGUE_POSITION[6] == 29;
    assert ESC50_CLASSES[29] == "hen";
    assert LIBRARY_POSITION[29] == 6;
    assert ALL_SOUNDS[7].name == "insects";
    assert CATALOGUE_POSITION[7] == 30;
    assert ESC50_CLASSES[30] == "insects";
    assert LIBRARY_POSITION[30] == 7;
    assert ALL_SOUNDS[8].name == "sheep";
    assert CATALOGUE_POSITION[8] == 39;
    assert ESC50_CLASSES[39] == "sheep";
    assert LIBRARY_POSITION[39] == 8;
    assert ALL_SOUNDS[9].name == "crow";
    assert CATALOGUE_POSITION[9] == 16;
    assert ESC50_CLASSES[16] == "crow";
    assert LIBRARY_POSITION[16] == 9;
  }

  lemma LibraryRow2()
    ensures forall k :: 10 <= k < 15 ==>
              CATALOGUE_POSITION[k] < 50 && ESC50_CLASSES[CATALOGUE_POSITION[k]] == ALL_SOUNDS[k].name
              && LIBRARY_POSITION[CATALOGUE_POSITION[k]] == k
  {
    assert ALL_SOUNDS[10].name == "rain";
    assert CATALOGUE_POSITION[10] == 36;
    assert ESC50_CLASSES[36] == "rain";
    assert LIBRARY_POSITION[36] == 10;
    assert ALL_SOUNDS[11].name == "sea_waves";
    assert CATALOGUE_POSITION[11] == 38;
    assert ESC50_CLASSES[38] == "sea_waves";
    assert LIBRARY_POSITION[38] == 11;
    assert ALL_SOUNDS[12].name == "crackling_fire";
    assert CATALOGUE_POSITION[12] == 14;
    assert ESC50_CLASSES[14] == "crackling_fire";
    assert LIBRARY_POSITION[14] == 12;
    assert ALL_SOUNDS[13].name == "crickets";
    assert CATALOGUE_POSITION[13] == 15;
    assert ESC50_CLASSES[15] == "crickets";
    assert LIBRARY_POSITION[15] == 13;
    assert ALL_SOUNDS[14].name == "chirping_birds";
    assert CATALOGUE_POSITION[14] == 7;
    assert ESC50_CLASSES[7] == "chirping_birds";
    assert LIBRARY_POSITION[7] == 14;
  }

  lemma LibraryRow3()
    ensures forall k :: 15 <= k < 20 ==>
              CATALOGUE_POSITION[k] < 50 && ESC50_CLASSES[CATALOGUE_POSITION[k]] == ALL_SOUNDS[k].name
              && LIBRARY_POSITION[CATALOGUE_POSITION[k]] == k
  {
    assert ALL_SOUNDS[15].name == "water_drops";
    assert CATALOGUE_POSITION[15] == 48;
    assert ESC50_CLASSES[48] == "water_drops";
    assert LIBRARY_POSITION[48] == 15;
    assert ALL_SOUNDS[16].name == "wind";
    assert CATALOGUE_POSITION[16] == 49;
    assert ESC50_CLASSES[49] == "wind";
    assert LIBRARY_POSITION[49] == 16;
    assert ALL_SOUNDS[17].name == "thunderstorm";
    assert CATALOGUE_POSITION[17] == 43;
    assert ESC50_CLASSES[43] == "thunderstorm";
    assert LIBRARY_POSITION[43] == 17;
    assert ALL_SOUNDS[18].name == "pouring_water";
    assert CATALOGUE_POSITION[18] == 35;
    assert ESC50_CLASSES[35] == "pouring_water";
    assert LIBRARY_POSITION[35] == 18;
    assert ALL_SOUNDS[19].name == "toilet_flush";
    assert CATALOGUE_POSITION[19] == 44;
    assert ESC50_CLASSES[44] == "toilet_flush";
    assert LIBRARY_POSITION[44] == 19;
  }

  lemma LibraryRow4()
    ensures forall k :: 20 <= k < 25 ==>
              CATALOGUE_POSITION[k] < 50 && ESC50_CLASSES[CATALOGUE_POSITION[k]] == ALL_SOUNDS[k].name
              && LIBRARY_POSITION[CATALOGUE_POSITION[k]] == k
  {
    assert ALL_SOUNDS[20].name == "crying_baby";
    assert CATALOGUE_POSITION[20] == 17;
    assert ESC50_CLASSES[17] == "crying_baby";
    assert LIBRARY_POSITION[17] == 20;
    assert ALL_SOUNDS[21].name == "sneezing";
    assert CATALOGUE_POSITION[21] == 41;
    assert ESC50_CLASSES[41] == "sneezing";
    assert LIBRARY_POSITION[41] == 21;
    assert ALL_SOUNDS[22].name == "clapping";
    assert CATALOGUE_POSITION[22] == 9;
    assert ESC50_CLASSES[9] == "clapping";
    assert LIBRARY_POSITION[9] == 22;
    assert ALL_SOUNDS[23].name == "breathing";
    assert CATALOGUE_POSITION[23] == 1;
    assert ESC50_CLASSES[1] == "breathing";
    assert LIBRARY_POSITION[1] == 23;
    assert ALL_SOUNDS[24].name == "coughing";
    assert CATALOGUE_POSITION[24] == 12;
    assert ESC50_CLASSES[12] == "coughing";
    assert LIBRARY_POSITION[12] == 24;
  }

  lemma LibraryRow5()
    ensures forall k :: 25 <= k < 30 ==>
              CATALOGUE_POSITION[k] < 50 && ESC50_CLASSES[CATALOGUE_POSITION[k]] == ALL_SOUNDS[k].name
              && LIBRARY_POSITION[CATALOGUE_POSITION[k]] == k
  {
    assert ALL_SOUNDS[25].name == "footsteps";
    assert CATALOGUE_POSITION[25] == 24;
    assert ESC50_CLASSES[24] == "footsteps";
    assert LIBRARY_POSITION[24] == 25;
    assert ALL_SOUNDS[26].name == "laughing";
    assert CATALOGUE_POSITION[26] == 32;
    assert ESC50_CLASSES[32] == "laughing";
    assert LIBRARY_POSITION[32] == 26;
    assert ALL_SOUNDS[27].name == "brushing_teeth";
    assert CATALOGUE_POSITION[27] == 2;
    assert ESC50_CLASSES[2] == "brushing_teeth";
    assert LIBRARY_POSITION[2] == 27;
    assert ALL_SOUNDS[28].name == "snoring";
    assert CATALOGUE_POSITION[28] == 42;
    assert ESC50_CLASSES[42] == "snoring";
    assert LIBRARY_POSITION[42] == 28;
    assert ALL_SOUNDS[29].name == "drinking_sipping";
    assert CATALOGUE_POSITION[29] == 21;
    assert ESC50_CLASSES[21] == "drinking_sipping";
    assert LIBRARY_POSITION[21] == 29;
  }

  lemma LibraryRow6()
    ensures forall k :: 30 <= k < 35 ==>
              CATALOGUE_POSITION[k] < 50 && ESC50_CLASSES[CATALOGUE_POSITION[k]] == ALL_SOUNDS[k].name
              && LIBRARY_POSITION[CATALOGUE_POSITION[k]] == k
  {
    assert ALL_SOUNDS[30].name == "door_wood_knock";
    assert CATALOGUE_POSITION[30] == 20;
    assert ESC50_CLASSES[20] == "door_wood_knock";
    assert LIBRARY_POSITION[20] == 30;
    assert ALL_SOUNDS[31].name == "mouse_click";
    assert CATALOGUE_POSITION[31] == 33;
    assert ESC50_CLASSES[33] == "mouse_click";
    assert LIBRARY_POSITION[33] == 31;
    assert ALL_SOUNDS[32].name == "keyboard_typing";
    assert CATALOGUE_POSITION[32] == 31;
    assert ESC50_CLASSES[31] == "keyboard_typing";
    assert LIBRARY_POSITION[31] == 32;
    assert ALL_SOUNDS[33].name == "door_wood_creaks";
    assert CATALOGUE_POSITION[33] == 19;
    assert ESC50_CLASSES[19] == "door_wood_creaks";
    assert LIBRARY_POSITION[19] == 33;
    assert ALL_SOUNDS[34].name == "can_opening";
    assert CATALOGUE_POSITION[34] == 3;
    assert ESC50_CLASSES[3] == "can_opening";
    assert LIBRARY_POSITION[3] == 34;
  }

  lemma LibraryRow7()
    ensures forall k :: 35 <= k < 40 ==>
              CATALOGUE_POSITION[k] < 50 && ESC50_CLASSES[CATALOGUE_POSITION[k]] == ALL_SOUNDS[k].name
              && LIBRARY_POSITION[CATALOGUE_POSITION[k]] == k
  {
    assert ALL_SOUNDS[35].name == "washing_machine";
    assert CATALOGUE_POSITION[35] == 47;
    assert ESC50_CLASSES[47] == "washing_machine";
    assert LIBRARY_POSITION[47] == 35;
    assert ALL_SOUNDS[36].name == "vacuum_cleaner";
    assert CATALOGUE_POSITION[36] == 46;
    assert ESC50_CLASSES[46] == "vacuum_cleaner";
    assert LIBRARY_POSITION[46] == 36;
    assert ALL_SOUNDS[37].name == "clock_alarm";
    assert CATALOGUE_POSITION[37] == 10;
    assert ESC50_CLASSES[10] == "clock_alarm";
    assert LIBRARY_POSITION[10] == 37;
    assert ALL_SOUNDS[38].name == "glass_breaking";
    assert CATALOGUE_POSITION[38] == 26;
    assert ESC50_CLASSES[26] == "glass_breaking";
    assert LIBRARY_POSITION[26] == 38;
    assert ALL_SOUNDS[39].name == "clock_tick";
    assert CATALOGUE_POSITION[39] == 11;
    assert ESC50_CLASSES[11] == "clock_tick";
    assert LIBRARY_POSITION[11] == 39;
  }

  lemma LibraryRow8()
    ensures forall k :: 40 <= k < 45 ==>
              CATALOGUE_POSITION[k] < 50 && ESC50_CLASSES[CATALOGUE_POSITION[k]] == ALL_SOUNDS[k].name
              && LIBRARY_POSITION[CATALOGUE_POSITION[k]] == k
  {
    assert ALL_SOUNDS[40].name == "helicopter";
    assert CATALOGUE_POSITION[40] == 28;
    assert ESC50_CLASSES[28] == "helicopter";
    assert LIBRARY_POSITION[28] == 40;
    assert ALL_SOUNDS[41].name == "chainsaw";
    assert CATALOGUE_POSITION[41] == 6;
    assert ESC50_CLASSES[6] == "chainsaw";
    assert LIBRARY_POSITION[6] == 41;
    assert ALL_SOUNDS[42].name == "siren";
    assert CATALOGUE_POSITION[42] == 40;
    assert ESC50_CLASSES[40] == "siren";
    assert LIBRARY_POSITION[40] == 42;
    assert ALL_SOUNDS[43].name == "car_horn";
    assert CATALOGUE_POSITION[43] == 4;
    assert ESC50_CLASSES[4] == "car_horn";
    assert LIBRARY_POSITION[4] == 43;
    assert ALL_SOUNDS[44].name == "engine";
    assert CATALOGUE_POSITION[44] == 22;
    assert ESC50_CLASSES[22] == "engine";
    assert LIBRARY_POSITION[22] == 44;
  }

  lemma LibraryRow9()
    ensures forall k :: 45 <= k < 50 ==>
              CATALOGUE_POSITION[k] < 50 && ESC50_CLASSES[CATALOGUE_POSITION[k]] == ALL_SOUNDS[k].name
              && LIBRARY_POSITION[CATALOGUE_POSITION[k]] == k
  {
    assert ALL_SOUNDS[45].name == "train";
    assert CATALOGUE_POSITION[45] == 45;
    assert ESC50_CLASSES[45] == "train";
    assert LIBRARY_POSITION[45] == 45;
    assert ALL_SOUNDS[46].name == "church_bells";
    assert CATALOGUE_POSITION[46] == 8;
    assert ESC50_CLASSES[8] == "church_bells";
    assert LIBRARY_POSITION[8] == 46;
    assert ALL_SOUNDS[47].name == "airplane";
    assert CATALOGUE_POSITION[47] == 0;
    assert ESC50_CLASSES[0] == "airplane";
    assert LIBRARY_POSITION[0] == 47;
    assert ALL_SOUNDS[48].name == "fireworks";
    assert CATALOGUE_POSITION[48] == 23;
    assert ESC50_CLASSES[23] == "fireworks";
    assert LIBRARY_POSITION[23] == 48;
    assert ALL_SOUNDS[49].name == "hand_saw";
    assert CATALOGUE_POSITION[49] == 27;
    assert ESC50_CLASSES[27] == "hand_saw";
    assert LIBRARY_POSITION[27] == 49;
  }

  lemma CoverRow0()
    ensures forall p :: 0 <= p < 5 ==>
              LIBRARY_POSITION[p] < 50 && ALL_SOUNDS[LIBRARY_POSITION[p]].name == ESC50_CLASSES[p]
  {
    assert LIBRARY_POSITION[0] == 47;
    assert ALL_SOUNDS[47].name == "airplane";
    assert ESC50_CLASSES[0] == "airplane";
    assert LIBRARY_POSITION[1] == 23;
    assert ALL_SOUNDS[23].name == "breathing";
    assert ESC50_CLASSES[1] == "breathing";
    assert LIBRARY_POSITION[2] == 27;
    assert ALL_SOUNDS[27].name == "brushing_teeth";
    assert ESC50_CLASSES[2] == "brushing_teeth";
    assert LIBRARY_POSITION[3] == 34;
    assert ALL_SOUNDS[34].name == "can_opening";
    assert ESC50_CLASSES[3] == "can_opening";
    assert LIBRARY_POSITION[4] == 43;
    assert ALL_SOUNDS[43].name == "car_horn";
    assert ESC50_CLASSES[4] == "car_horn";
  }

  lemma CoverRow1()
    ensures forall p :: 5 <= p < 10 ==>
              LIBRARY_POSITION[p] < 50 && ALL_SOUNDS[LIBRARY_POSITION[p]].name == ESC50_CLASSES[p]
  {
    assert LIBRARY_POSITION[5] == 5;
    assert ALL_SOUNDS[5].name == "cat";
    assert ESC50_CLASSES[5] == "cat";
    assert LIBRARY_POSITION[6] == 41;
    assert ALL_SOUNDS[41].name == "chainsaw";
    assert ESC50_CLASSES[6] == "chainsaw";
    assert LIBRARY_POSITION[7] == 14;
    assert ALL_SOUNDS[14].name == "chirping_birds";
    assert ESC50_CLASSES[7] == "chirping_birds";
    assert LIBRARY_POSITION[8] == 46;
    assert ALL_SOUNDS[46].name == "church_bells";
    assert ESC50_CLASSES[8] == "church_bells";
    assert LIBRARY_POSITION[9] == 22;
    assert ALL_SOUNDS[22].name == "clapping";
    assert ESC50_CLASSES[9] == "clapping";
  }

  lemma CoverRow2()
    ensures forall p :: 10 <= p < 15 ==>
              LIBRARY_POSITION[p] < 50 && ALL_SOUNDS[LIBRARY_POSITION[p]].name == ESC50_CLASSES[p]
  {
    assert LIBRARY_POSITION[10] == 37;
    assert ALL_SOUNDS[37].name == "clock_alarm";
    assert ESC50_CLASSES[10] == "clock_alarm";
    assert LIBRARY_POSITION[11] == 39;
    assert ALL_SOUNDS[39].name == "clock_tick";
    assert ESC50_CLASSES[11] == "clock_tick";
    assert LIBRARY_POSITION[12] == 24;
    assert ALL_SOUNDS[24].name == "coughing";
    assert ESC50_CLASSES[12] == "coughing";
    assert LIBRARY_POSITION[13] == 3;
    assert ALL_SOUNDS[3].name == "cow";
    assert ESC50_CLASSES[13] == "cow";
    assert LIBRARY_POSITION[14] == 12;
    assert ALL_SOUNDS[12].name == "crackling_fire";
    assert ESC50_CLASSES[14] == "crackling_fire";
  }

  lemma CoverRow3()
    ensures forall p :: 15 <= p < 20 ==>
              LIBRARY_POSITION[p] < 50 && ALL_SOUNDS[LIBRARY_POSITION[p]].name == ESC50_CLASSES[p]
  {
    assert LIBRARY_POSITION[15] == 13;
    assert ALL_SOUNDS[13].name == "crickets";
    assert ESC50_CLASSES[15] == "crickets";
    assert LIBRARY_POSITION[16] == 9;
    assert ALL_SOUNDS[9].name == "crow";
    assert ESC50_CLASSES[16] == "crow";
    assert LIBRARY_POSITION[17] == 20;
    assert ALL_SOUNDS[20].name == "crying_baby";
    assert ESC50_CLASSES[17] == "crying_baby";
    assert LIBRARY_POSITION[18] == 0;
    assert ALL_SOUNDS[0].name == "dog";
    assert ESC50_CLASSES[18] == "dog";
    assert LIBRARY_POSITION[19] == 33;
    assert ALL_SOUNDS[33].name == "door_wood_creaks";
    assert ESC50_CLASSES[19] == "door_wood_creaks";
  }

  lemma CoverRow4()
    ensures forall p :: 20 <= p < 25 ==>
              LIBRARY_POSITION[p] < 50 && ALL_SOUNDS[LIBRARY_POSITION[p]].name == ESC50_CLASSES[p]
  {
    assert LIBRARY_POSITION[20] == 30;
    assert ALL_SOUNDS[30].name == "door_wood_knock";
    assert ESC50_CLASSES[20] == "door_wood_knock";
    assert LIBRARY_POSITION[21] == 29;
    assert ALL_SOUNDS[29].name == "drinking_sipping";
    assert ESC50_CLASSES[21] == "drinking_sipping";
    assert LIBRARY_POSITION[22] == 44;
    assert ALL_SOUNDS[44].name == "engine";
    assert ESC50_CLASSES[22] == "engine";
    assert LIBRARY_POSITION[23] == 48;
    assert ALL_SOUNDS[48].name == "fireworks";
    assert ESC50_CLASSES[23] == "fireworks";
    assert LIBRARY_POSITION[24] == 25;
    assert ALL_SOUNDS[25].name == "footsteps";
    assert ESC50_CLASSES[24] == "footsteps";
  }

  lemma CoverRow5()
    ensures forall p :: 25 <= p < 30 ==>
              LIBRARY_POSITION[p] < 50 && ALL_SOUNDS[LIBRARY_POSITION[p]].name == ESC50_CLASSES[p]
  {
    assert LIBRARY_POSITION[25] == 4;
    assert ALL_SOUNDS[4].name == "frog";
    assert ESC50_CLASSES[25] == "frog";
    assert LIBRARY_POSITION[26] == 38;
    assert ALL_SOUNDS[38].name == "glass_breaking";
    assert ESC50_CLASSES[26] == "glass_breaking";
    assert LIBRARY_POSITION[27] == 49;
    assert ALL_SOUNDS[49].name == "hand_saw";
    assert ESC50_CLASSES[27] == "hand_saw";
    assert LIBRARY_POSITION[28] == 40;
    assert ALL_SOUNDS[40].name == "helicopter";
    assert ESC50_CLASSES[28] == "helicopter";
    assert LIBRARY_POSITION[29] == 6;
    assert ALL_SOUNDS[6].name == "hen";
    assert ESC50_CLASSES[29] == "hen";
  }

  lemma CoverRow6()
    ensures forall p :: 30 <= p < 35 ==>
              LIBRARY_POSITION[p] < 50 && ALL_SOUNDS[LIBRARY_POSITION[p]].name == ESC50_CLASSES[p]
  {
    assert LIBRARY_POSITION[30] == 7;
    assert ALL_SOUNDS[7].name == "insects";
    assert ESC50_CLASSES[30] == "insects";
    assert LIBRARY_POSITION[31] == 32;
    assert ALL_SOUNDS[32].name == "keyboard_typing";
    assert ESC50_CLASSES[31] == "keyboard_typing";
    assert LIBRARY_POSITION[32] == 26;
    assert ALL_SOUNDS[26].name == "laughing";
    assert ESC50_CLASSES[32] == "laughing";
    assert LIBRARY_POSITION[33] == 31;
    assert ALL_SOUNDS[31].name == "mouse_click";
    assert ESC50_CLASSES[33] == "mouse_click";
    assert LIBRARY_POSITION[34] == 2;
    assert ALL_SOUNDS[2].name == "pig";
    assert ESC50_CLASSES[34] == "pig";
  }

  lemma CoverRow7()
    ensures forall p :: 35 <= p < 40 ==>
              LIBRARY_POSITION[p] < 50 && ALL_SOUNDS[LIBRARY_POSITION[p]].name == ESC50_CLASSES[p]
  {
    assert LIBRARY_POSITION[35] == 18;
    assert ALL_SOUNDS[18].name == "pouring_water";
    assert ESC50_CLASSES[35] == "pouring_water";
    assert LIBRARY_POSITION[36] == 10;
    assert ALL_SOUNDS[10].name == "rain";
    assert ESC50_CLASSES[36] == "rain";
    assert LIBRARY_POSITION[37] == 1;
    assert ALL_SOUNDS[1].name == "rooster";
    assert ESC50_CLASSES[37] == "rooster";
    assert LIBRARY_POSITION[38] == 11;
    assert ALL_SOUNDS[11].name == "sea_waves";
    assert ESC50_CLASSES[38] == "sea_waves";
    assert LIBRARY_POSITION[39] == 8;
    assert ALL_SOUNDS[8].name == "sheep";
    assert ESC50_CLASSES[39] == "sheep";
  }

  lemma CoverRow8()
    ensures forall p :: 40 <= p < 45 ==>
              LIBRARY_POSITION[p] < 50 && ALL_SOUNDS[LIBRARY_POSITION[p]].name == ESC50_CLASSES[p]
  {
    assert LIBRARY_POSITION[40] == 42;
    assert ALL_SOUNDS[42].name == "siren";
    assert ESC50_CLASSES[40] == "siren";
    assert LIBRARY_POSITION[41] == 21;
    assert ALL_SOUNDS[21].name == "sneezing";
    assert ESC50_CLASSES[41] == "sneezing";
    assert LIBRARY_POSITION[42] == 28;
    assert ALL_SOUNDS[28].name == "snoring";
    assert ESC50_CLASSES[42] == "snoring";
    assert LIBRARY_POSITION[43] == 17;
    assert ALL_SOUNDS[17].name == "thunderstorm";
    assert ESC50_CLASSES[43] == "thunderstorm";
    assert LIBRARY_POSITION[44] == 19;
    assert ALL_SOUNDS[19].name == "toilet_flush";
    assert ESC50_CLASSES[44] == "toilet_flush";
  }

  lemma CoverRow9()
    ensures forall p :: 45 <= p < 50 ==>
              LIBRARY_POSITION[p] < 50 && ALL_SOUNDS[LIBRARY_POSITION[p]].name == ESC50_CLASSES[p]
  {
    assert LIBRARY_POSITION[45] == 45;
    assert ALL_SOUNDS[45].name == "train";
    assert ESC50_CLASSES[45] == "train";
    assert LIBRARY_POSITION[46] == 36;
    assert ALL_SOUNDS[36].name == "vacuum_cleaner";
    assert ESC50_CLASSES[46] == "vacuum_cleaner";
    assert LIBRARY_POSITION[47] == 35;
    assert ALL_SOUNDS[35].name == "washing_machine";
    assert ESC50_CLASSES[47] == "washing_machine";
    assert LIBRARY_POSITION[48] == 15;
    assert ALL_SOUNDS[15].name == "water_drops";
    assert ESC50_CLASSES[48] == "water_drops";
    assert LIBRARY_POSITION[49] == 16;
    assert ALL_SOUNDS[16].name == "wind";
    assert ESC50_CLASSES[49] == "wind";
  }

  /** All entries of a catalogue, category by category, each category in list order. */
  function Entries(db: Dict<string, seq<Sound>>): seq<Sound> {
    if db == [] then [] else Entries(db[..|db| - 1]) + db[|db| - 1].1
  }

  /** Every entry of the first `c` categories is an entry of the whole catalogue. */
  lemma {:induction false} EntriesPrefix(db: Dict<string, seq<Sound>>, c: nat)
    requires c <= |db|
    ensures forall x :: x in Entries(db[..c]) ==> x in Entries(db)
    decreases |db|
  {
    if c < |db| {
      var init := db[..|db| - 1];
      assert init[..c] == db[..c];
      EntriesPrefix(init, c);
    } else {
      assert db[..c] == db;
    }
  }

  /** Five categories of ten entries, whose entries in order are ALL_SOUNDS. */
  lemma LibraryShape()
    ensures Keys(SOUND_DATABASE) == ["Animals", "Natural/Water", "Human", "Domestic", "Urban"]
    ensures forall c :: 0 <= c < |SOUND_DATABASE| ==> |SOUND_DATABASE[c].1| == 10
    ensures Entries(SOUND_DATABASE) == ALL_SOUNDS && |ALL_SOUNDS| == 50
  {
    var db := SOUND_DATABASE;
    assert db[..0] == [];
    assert db[..1][..0] == db[..0] && db[..2][..1] == db[..1] && db[..3][..2] == db[..2];
    assert db[..4][..3] == db[..3] && db[..5][..4] == db[..4] && db[..5] == db;
    assert Entries(db[..1]) == ANIMALS;
    assert Entries(db[..2]) == ANIMALS + NATURAL_WATER;
    assert Entries(db[..3]) == ANIMALS + NATURAL_WATER + HUMAN;
    assert Entries(db[..4]) == ANIMALS + NATURAL_WATER + HUMAN + DOMESTIC;
  }

  /**
   * The library and the classifier's catalogue name the same 50 sounds: every
   * entry's name is a catalogue label, no two entries share a name, and every
   * catalogue label has an entry.
   */
  lemma LibraryMatchesCatalogue()
    ensures forall k :: 0 <= k < |ALL_SOUNDS| ==> ALL_SOUNDS[k].name in ESC50_CLASSES
    ensures forall i, j :: 0 <= i < j < |ALL_SOUNDS| ==> ALL_SOUNDS[i].name != ALL_SOUNDS[j].name
    ensures forall l :: l in ESC50_CLASSES ==> exists k :: 0 <= k < |ALL_SOUNDS| && ALL_SOUNDS[k].name == l
  {
    LibraryShape();
    CatalogueSorted();
    LibraryRow0(); LibraryRow1(); LibraryRow2(); LibraryRow3(); LibraryRow4();
    LibraryRow5(); LibraryRow6(); LibraryRow7(); LibraryRow8(); LibraryRow9();
    CoverRow0(); CoverRow1(); CoverRow2(); CoverRow3(); CoverRow4();
    CoverRow5(); CoverRow6(); CoverRow7(); CoverRow8(); CoverRow9();
    NamesMatchLabels(ALL_SOUNDS, ESC50_CLASSES, CATALOGUE_POSITION, LIBRARY_POSITION);
  }

  /**
   * Entries and distinct labels in correspondence through two position tables,
   * each undoing the other, name every label exactly once.
   */
  lemma NamesMatchLabels(sounds: seq<Sound>, labels: seq<string>, labelAt: seq<nat>, soundAt: seq<nat>)
    requires |labelAt| >= |sounds| && |soundAt| >= |labels|
    requires forall i, j :: 0 <= i < j < |labels| ==> labels[i] != labels[j]
    requires forall k :: 0 <= k < |sounds| ==>
               labelAt[k] < |labels| && labels[labelAt[k]] == sounds[k].name && soundAt[labelAt[k]] == k
    requires forall p :: 0 <= p < |labels| ==> soundAt[p] < |sounds| && sounds[soundAt[p]].name == labels[p]
    ensures forall k :: 0 <= k < |sounds| ==> sounds[k].name in labels
    ensures forall i, j :: 0 <= i < j < |sounds| ==> sounds[i].name != sounds[j].name
    ensures forall l :: l in labels ==> exists k :: 0 <= k < |sounds| && sounds[k].name == l
  {
    forall i, j | 0 <= i < j < |sounds| ensures sounds[i].name != sounds[j].name {
      var p, q := labelAt[i], labelAt[j];
      assert p != q by {
        assert soundAt[p] == i && soundAt[q] == j;
      }
      if p < q {
        assert labels[p] != labels[q];
      } else {
        assert labels[q] != labels[p];
      }
    }
    forall l | l in labels ensures exists k :: 0 <= k < |sounds| && sounds[k].name == l {
      var p :| 0 <= p < |labels| && labels[p] == l;
      assert sounds[soundAt[p]].name == l;
    }
  }

  /** The search test of `_filter_sounds`: the query occurs in the lowered name or the lowered Vietnamese label. */
  predicate Matches(lower: char -> char, query: string, s: Sound) {
    Contains(LowerStr(lower, s.name), query) || Contains(LowerStr(lower, s.vi), query)
  }

  /** The entries of `sounds` that match, in their order. */
  function Filter(lower: char -> char, query: string, sounds: seq<Sound>): seq<Sound> {
    if sounds == [] then []
    else
      var last := sounds[|sounds| - 1];
      Filter(lower, query, sounds[..|sounds| - 1]) + (if Matches(lower, query, last) then [last] else [])
  }

  /** An entry is among the matches exactly when it is one of the entries searched and it matches. */
  lemma {:induction false} FilterMembers(lower: char -> char, query: string, sounds: seq<Sound>)
    ensures forall x :: x in Filter(lower, query, sounds) <==> x in sounds && Matches(lower, query, x)
  {
    if sounds != [] {
      var last := sounds[|sounds| - 1];
      FilterMembers(lower, query, sounds[..|sounds| - 1]);
      assert sounds == sounds[..|sounds| - 1] + [last];
    }
  }

  /**
   * The matches keep catalogue order: they are the matching entries picked at
   * strictly increasing positions, and no matching position is skipped.
   */
  lemma {:induction false} FilterPositions(lower: char -> char, query: string, sounds: seq<Sound>) returns (idx: seq<nat>)
    ensures |idx| == |Filter(lower, query, sounds)|
    ensures forall k :: 0 <= k < |idx| ==> idx[k] < |sounds| && Filter(lower, query, sounds)[k] == sounds[idx[k]]
    ensures forall k, l :: 0 <= k < l < |idx| ==> idx[k] < idx[l]
    ensures forall i :: 0 <= i < |sounds| && Matches(lower, query, sounds[i]) ==> i in idx
  {
    if sounds == [] {
      return [];
    }
    var n := |sounds| - 1;
    var init := sounds[..n];
    var prev := FilterPositions(lower, query, init);
    if Matches(lower, query, sounds[n]) {
      idx := prev + [n];
    } else {
      idx := prev;
    }
    forall i | 0 <= i < |sounds| && Matches(lower, query, sounds[i]) ensures i in idx {
      if i < n {
        assert init[i] == sounds[i];
        assert i in prev;
      }
    }
  }

  /** What the library shows after a search. */
  datatype View = AllTabs | Results(sounds: seq<Sound>) | NoResults

  /** The view for a lowered query: every tab for the empty query, otherwise the matches, or the no-results view. */
  function ViewFor(lower: char -> char, query: string): View {
    if query == "" then AllTabs
    else
      var found := Filter(lower, query, Entries(SOUND_DATABASE));
      if found != [] then Results(found) else NoResults
  }

  class SoundLibraryView {
    var searchQuery: string
    var view: View

    constructor()
      ensures searchQuery == "" && view == AllTabs
    {
      searchQuery := "";
      view := AllTabs;
    }

    /** `on_search_change`: the typed value is lowered, then the library is filtered by it. */
    method OnSearchChange(lower: char -> char, value: string)
      modifies this
      ensures searchQuery == LowerStr(lower, value)
      ensures view == ViewFor(lower, searchQuery)
    {
      searchQuery := LowerStr(lower, value);
      FilterSounds(lower);
    }

    /** `_filter_sounds`: the empty query shows every tab, any other the entries it matches, or no results. */
    method FilterSounds(lower: char -> char)
      modifies this
      ensures searchQuery == old(searchQuery)
      ensures view == ViewFor(lower, searchQuery)
    {
      if searchQuery == "" {
        view := AllTabs;
        return;
      }
      var filteredResults := FilterDatabase(lower, searchQuery, SOUND_DATABASE);
      if filteredResults != [] {
        view := Results(filteredResults);
      } else {
        view := NoResults;
      }
    }
  }

  /** The nested loops of `_filter_sounds`: category by category, sound by sound, keep the matches. */
  method FilterDatabase(lower: char -> char, query: string, db: Dict<string, seq<Sound>>) returns (filteredResults: seq<Sound>)
    ensures filteredResults == Filter(lower, query, Entries(db))
  {
    filteredResults := [];
    for c := 0 to |db|
      invariant filteredResults == Filter(lower, query, Entries(db[..c]))
    {
      var sounds := db[c].1;
      ghost var before := Entries(db[..c]);
      EntriesStep(db, c);
      assert before + sounds[..0] == before;
      for j := 0 to |sounds|
        invariant filteredResults == Filter(lower, query, before + sounds[..j])
      {
        var sound := sounds[j];
        FilterStep(lower, query, before, sounds, j);
        if Matches(lower, query, sound) {
          filteredResults := filteredResults + [sound];
        }
      }
      assert sounds[..|sounds|] == sounds;
    }
    assert db[..|db|] == db;
  }

  /** The entries of the first `c + 1` categories extend those of the first `c` by category `c`. */
  lemma EntriesStep(db: Dict<string, seq<Sound>>, c: nat)
    requires c < |db|
    ensures Entries(db[..c + 1]) == Entries(db[..c]) + db[c].1
  {
    assert db[..c + 1][..c] == db[..c];
  }

  /** Filtering one more entry appends it exactly when it matches. */
  lemma FilterStep(lower: char -> char, query: string, before: seq<Sound>, sounds: seq<Sound>, j: nat)
    requires j < |sounds|
    ensures Filter(lower, query, before + sounds[..j + 1]) ==
            Filter(lower, query, before + sounds[..j]) + (if Matches(lower, query, sounds[j]) then [sounds[j]] else [])
  {
    var pre := before + sounds[..j];
    assert before + sounds[..j + 1] == pre + [sounds[j]];
    assert (pre + [sounds[j]])[..|pre|] == pre;
  }

  // ---- the labels as written cannot be found by a Vietnamese query ----

  /**
   * Under the Vietnamese query "chó", the dog entry as written is not found:
   * its label holds no character that lowers to 'ó', neither does its name.
   */
  lemma AsWrittenDogNotFound(lower: char -> char)
    requires forall c :: lower(c) == 'ó' ==> c == 'ó' || c == 'Ó'
    ensures ANIMALS_AS_WRITTEN[0].name == "dog"
    ensures !Matches(lower, "chó", ANIMALS_AS_WRITTEN[0])
  {
    var s := ANIMALS_AS_WRITTEN[0];
    assert s == Sound("dog", "Ch√≥ s·ªßa");
    forall t | t == s.name || t == s.vi ensures !Contains(LowerStr(lower, t), "chó") {
      assert 'ó' !in t && 'Ó' !in t;
      var l := LowerStr(lower, t);
      forall k | 0 <= k < |l| ensures l[k] != 'ó' {
        assert l[k] == lower(t[k]) && t[k] in t;
      }
      forall i ensures !OccursAt(l, "chó", i) {
        if 0 <= i && i + 3 <= |l| {
          assert l[i..i + 3][2] == l[i + 2];
        }
      }
      ContainsIffOccurs(l, "chó");
    }
  }

  /**
   * Searching the library as written for "chó" does not list the dog entry:
   * the view the program shows for that query leaves it out.
   */
  lemma AsWrittenDogNotListed(lower: char -> char)
    requires forall c :: lower(c) == 'ó' ==> c == 'ó' || c == 'Ó'
    ensures ANIMALS_AS_WRITTEN[0] in Entries(SOUND_DATABASE_AS_WRITTEN)
    ensures ANIMALS_AS_WRITTEN[0] !in Filter(lower, "chó", Entries(SOUND_DATABASE_AS_WRITTEN))
  {
    AsWrittenDogNotFound(lower);
    var db := SOUND_DATABASE_AS_WRITTEN;
    assert db[..1] == [("Animals", ANIMALS_AS_WRITTEN)];
    EntriesStep(db, 0);
    assert Entries(db[..0]) == [];
    EntriesPrefix(db, 1);
    FilterMembers(lower, "chó", Entries(db));
  }

  /** With the label as intended, the same query finds the dog entry. */
  lemma IntendedDogFound(lower: char -> char)
    requires lower('C') == 'c' && lower('h') == 'h' && lower('ó') == 'ó'
    ensures ANIMALS[0].name == "dog"
    ensures Matches(lower, "chó", ANIMALS[0])
    ensures ANIMALS[0] in Filter(lower, "chó", Entries(SOUND_DATABASE))
  {
    var s := ANIMALS[0];
    assert s == Sound("dog", "Chó sủa");
    var l := LowerStr(lower, s.vi);
    assert l[..3] == "chó";
    assert OccursAt(l, "chó", 0);
    ContainsIffOccurs(l, "chó");
    LibraryShape();
    assert ALL_SOUNDS[0] == s;
    FilterMembers(lower, "chó", ALL_SOUNDS);
  }
}
