/** The spellings that the Sinwenz, rime-dictionary and diacritic renderers
    carry in their own code instead of in the symbol table
    (src/parsetc/Teochew/translit.py). */
module TeochewTables {

  /** Sinwenz initials, the hard-coded table followed by the three
      initials that merged in modern Teochew. */
  function SinwzInitials(): map<string, string> {
    map[
      "INIT_BH" := "bh",
      "INIT_P" := "p",
      "INIT_B" := "b",
      "INIT_M" := "m",
      "INIT_NG" := "ng",
      "INIT_N" := "n",
      "INIT_GH" := "gh",
      "INIT_K" := "k",
      "INIT_G" := "g",
      "INIT_D" := "d",
      "INIT_T" := "t",
      "INIT_Z" := "z",
      "INIT_C" := "c",
      "INIT_S" := "s",
      "INIT_H" := "x",
      "INIT_R" := "dz",
      "INIT_L" := "l",
      "INIT_CH" := "z",
      "INIT_CHH" := "c",
      "INIT_J" := "dz"
    ]
  }

  function SinwzMedials(): map<string, string> {
    map[
      "MED_AI" := "ai",
      "MED_AU" := "ao",
      "MED_IA" := "ia",
      "MED_IAU" := "iao",
      "MED_IEU" := "iao",
      "MED_IOU" := "iao",
      "MED_IU" := "iu",
      "MED_IE" := "io",
      "MED_IO" := "io",
      "MED_OI" := "oi",
      "MED_OU" := "ou",
      "MED_UAI" := "uai",
      "MED_UA" := "ua",
      "MED_UE" := "ue",
      "MED_UI" := "ui",
      "MED_A" := "a",
      "MED_V" := "y",
      "MED_E" := "e",
      "MED_I" := "i",
      "MED_O" := "o",
      "MED_U" := "u"
    ]
  }

  /** Sinwenz writes every stop but -p as q */
  function SinwzStops(): map<string, string> {
    map["COD_P" := "p", "COD_K" := "q", "COD_H" := "q", "COD_T" := "q"]
  }

  function SinwzNasalCodas(): map<string, string> {
    map["COD_M" := "m", "COD_NG" := "ng", "COD_N" := "n"]
  }

  /** Rime-dictionary initial classes; the null initial 英 is added by the
      syllable, not here. */
  function ZapngouInitials(): map<string, string> {
    map[
      "INIT_L" := "柳",
      "INIT_N" := "柳(n)",
      "INIT_B" := "邊",
      "INIT_M" := "邊(m)",
      "INIT_G" := "求",
      "INIT_NG" := "求(ng)",
      "INIT_K" := "去",
      "INIT_D" := "地",
      "INIT_P" := "頗",
      "INIT_T" := "他",
      "INIT_Z" := "貞",
      "INIT_R" := "入",
      "INIT_S" := "時",
      "INIT_BH" := "文",
      "INIT_GH" := "語",
      "INIT_C" := "出",
      "INIT_H" := "喜",
      "INIT_CH" := "貞",
      "INIT_CHH" := "出",
      "INIT_J" := "入"
    ]
  }

  /** Rime classes keyed by the dieghv spelling of the whole final, in the
      order the source lists them.  Some keys occur twice ("ia", "iah",
      "iang", "iak", "ang", "ak"); as in a Python dict display, the later
      occurrence is the one that stays, which is what `+` on maps does. */
  function RimeClasses(): map<string, string> {
    RimeBlock1() + RimeBlock2() + RimeBlock3() + RimeBlock4() + RimeBlock5()
  }

  /** the rime entries of lines 572-591 */
  function RimeBlock1(): map<string, string> {
    map[
      "ung" := "君",
      "uk" := "君",
      "ieng" := "堅",
      "iang" := "堅",
      "iek" := "堅",
      "iak" := "堅",
      "im" := "金",
      "ip" := "金",
      "ui" := "歸",
      "uih" := "歸",
      "ia" := "佳",
      "iah" := "佳",
      "ang" := "干",
      "ak" := "干",
      "ong" := "公",
      "ok" := "公",
      "uai" := "乖",
      "uain" := "乖（鼻）",
      "uaih" := "乖",
      "eng" := "經"
    ]
  }

  /** the rime entries of lines 592-611 */
  function RimeBlock2(): map<string, string> {
    map[
      "ek" := "經",
      "ueng" := "關",
      "uek" := "關",
      "ou" := "孤",
      "ouh" := "孤",
      "iau" := "驕",
      "iou" := "驕",
      "ieu" := "驕",
      "iauh" := "驕",
      "iouh" := "驕",
      "ieuh" := "驕",
      "oi" := "雞",
      "oih" := "雞",
      "iong" := "恭",
      "iok" := "恭",
      "o" := "高",
      "oh" := "高",
      "ai" := "皆",
      "ain" := "皆（鼻）",
      "aih" := "皆"
    ]
  }

  /** the rime entries of lines 612-631 */
  function RimeBlock3(): map<string, string> {
    map[
      "ing" := "斤",
      "ik" := "斤",
      "ion" := "薑",
      "ionh" := "薑",
      "ien" := "薑",
      "ienh" := "薑",
      "am" := "甘",
      "ap" := "甘",
      "ua" := "柯",
      "uah" := "柯",
      "ang" := "江",
      "ak" := "江",
      "iam" := "兼",
      "iap" := "兼",
      "iem" := "兼",
      "iep" := "兼",
      "au" := "交",
      "auh" := "交",
      "e" := "家",
      "eh" := "家"
    ]
  }

  /** the rime entries of lines 632-651 */
  function RimeBlock4(): map<string, string> {
    map[
      "ue" := "瓜",
      "ueh" := "瓜",
      "a" := "膠",
      "ah" := "膠",
      "u" := "龜",
      "uh" := "龜",
      "vng" := "扛",
      "ng" := "扛",
      "vk" := "扛",
      "i" := "枝",
      "ih" := "枝",
      "iu" := "鳩",
      "iuh" := "鳩",
      "uan" := "官",
      "uanh" := "官",
      "v" := "車",
      "vh" := "車",
      "an" := "柑",
      "anh" := "柑",
      "en" := "更"
    ]
  }

  /** the rime entries of lines 652-668 */
  function RimeBlock5(): map<string, string> {
    map[
      "enh" := "更",
      "ia" := "京",
      "ian" := "京（鼻）",
      "iah" := "京",
      "ianh" := "京（鼻）",
      "io" := "蕉",
      "ioh" := "蕉",
      "ie" := "蕉",
      "ieh" := "蕉",
      "iang" := "姜",
      "iak" := "姜",
      "in" := "天",
      "inh" := "天",
      "uang" := "光",
      "uak" := "光",
      "oin" := "間",
      "oinh" := "間"
    ]
  }

  /** Duffus tone marks: combining acute, grave, circumflex, tilde, macron
      and dot above; tones 1, 4 and 0 are unmarked. */
  function DuffusMarks(): map<string, string> {
    map["1" := "", "2" := "\U{0301}", "3" := "\U{0300}", "4" := "", "5" := "\U{0302}",
        "6" := "\U{0303}", "7" := "\U{0304}", "8" := "\U{0307}", "0" := ""]
  }

  /** Tie-lo tone marks: as Duffus but breve for tone 6 and circumflex,
      shared with tone 5, for tone 8. */
  function TloMarks(): map<string, string> {
    map["1" := "", "2" := "\U{0301}", "3" := "\U{0300}", "4" := "", "5" := "\U{0302}",
        "6" := "\U{0306}", "7" := "\U{0304}", "8" := "\U{0302}", "0" := ""]
  }

  /** the tone rules of the Teochew grammar, each with a callback */
  predicate IsToneRule(name: string) {
    name in ["tone_1", "tone_2", "tone_3", "tone_4", "tone_5", "tone_6", "tone_7", "tone_8"]
  }

  /** Sinwenz spells each tone rule as its digit. */
  function SinwzTones(): map<string, string> {
    map["tone_1" := "1", "tone_2" := "2", "tone_3" := "3", "tone_4" := "4",
        "tone_5" := "5", "tone_6" := "6", "tone_7" := "7", "tone_8" := "8"]
  }

  /** The rime dictionary names the eight tones by register and category. */
  function ZapngouTones(): map<string, string> {
    map["tone_1" := "上平", "tone_2" := "上上", "tone_3" := "上去", "tone_4" := "上入",
        "tone_5" := "下平", "tone_6" := "下上", "tone_7" := "下去", "tone_8" := "下入"]
  }
}
