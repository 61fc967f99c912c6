/** The hard-coded spelling tables of the legacy renderers in translit.py,
    one map per scheme and category, keyed by the symbolic name (or by the
    tone digit, for the tone marks). */
module LegacyTables {

  /** legacy Gdpi initials (translit.py:14-30) */
  function GdpiInitials(): map<string, string> {
    map[
      "INIT_BH" := "bh",
      "INIT_P" := "p",
      "INIT_B" := "b",
      "INIT_M" := "m",
      "INIT_NG" := "ng",
      "INIT_N" := "n",
      "INIT_GH" := "gh",
      "INIT_K" := "k",
      "INIT_G" := "g",
      "INIT_D" := "d",
      "INIT_T" := "t",
      "INIT_Z" := "z",
      "INIT_C" := "c",
      "INIT_S" := "s",
      "INIT_H" := "h",
      "INIT_R" := "r",
      "INIT_L" := "l"
    ]
  }

  /** legacy Ggnn initials (translit.py:113-129) */
  function GgnnInitials(): map<string, string> {
    map[
      "INIT_BH" := "bh",
      "INIT_P" := "p",
      "INIT_B" := "b",
      "INIT_M" := "m",
      "INIT_NG" := "ng",
      "INIT_N" := "n",
      "INIT_GH" := "gh",
      "INIT_K" := "k",
      "INIT_G" := "g",
      "INIT_D" := "d",
      "INIT_T" := "t",
      "INIT_Z" := "j",
      "INIT_C" := "ch",
      "INIT_S" := "s",
      "INIT_H" := "h",
      "INIT_R" := "y",
      "INIT_L" := "l"
    ]
  }

  /** legacy Tlo initials (translit.py:215-231) */
  function TloInitials(): map<string, string> {
    map[
      "INIT_BH" := "b",
      "INIT_P" := "ph",
      "INIT_B" := "p",
      "INIT_M" := "m",
      "INIT_NG" := "ng",
      "INIT_N" := "n",
      "INIT_GH" := "g",
      "INIT_K" := "kh",
      "INIT_G" := "k",
      "INIT_D" := "t",
      "INIT_T" := "th",
      "INIT_Z" := "ts",
      "INIT_C" := "tsh",
      "INIT_S" := "s",
      "INIT_H" := "h",
      "INIT_R" := "z",
      "INIT_L" := "l"
    ]
  }

  /** legacy Duffus initials (translit.py:340-356) */
  function DuffusInitials(): map<string, string> {
    map[
      "INIT_BH" := "b",
      "INIT_P" := "ph",
      "INIT_B" := "p",
      "INIT_M" := "m",
      "INIT_NG" := "ng",
      "INIT_N" := "n",
      "INIT_GH" := "g",
      "INIT_K" := "kh",
      "INIT_G" := "k",
      "INIT_D" := "t",
      "INIT_T" := "th",
      "INIT_Z" := "ts",
      "INIT_C" := "tsh",
      "INIT_S" := "s",
      "INIT_H" := "h",
      "INIT_R" := "z",
      "INIT_L" := "l"
    ]
  }

  /** legacy Gdpi medials (translit.py:36-56) */
  function GdpiMedials(): map<string, string> {
    map[
      "MED_AI" := "ai",
      "MED_AU" := "ao",
      "MED_IA" := "ia",
      "MED_IAU" := "iao",
      "MED_IEU" := "i\U{00EA}u",
      "MED_IOU" := "iou",
      "MED_IU" := "iu",
      "MED_IE" := "i\U{00EA}",
      "MED_IO" := "io",
      "MED_OI" := "oi",
      "MED_OU" := "ou",
      "MED_UAI" := "uai",
      "MED_UA" := "ua",
      "MED_UE" := "u\U{00EA}",
      "MED_UI" := "ui",
      "MED_A" := "a",
      "MED_V" := "e",
      "MED_E" := "\U{00EA}",
      "MED_I" := "i",
      "MED_O" := "o",
      "MED_U" := "u"
    ]
  }

  /** legacy Ggnn medials (translit.py:135-155) */
  function GgnnMedials(): map<string, string> {
    map[
      "MED_AI" := "ai",
      "MED_AU" := "ao",
      "MED_IA" := "ia",
      "MED_IAU" := "iao",
      "MED_IEU" := "ieu",
      "MED_IOU" := "iou",
      "MED_IU" := "iu",
      "MED_IE" := "ie",
      "MED_IO" := "io",
      "MED_OI" := "oi",
      "MED_OU" := "ou",
      "MED_UAI" := "uai",
      "MED_UA" := "ua",
      "MED_UE" := "ue",
      "MED_UI" := "ui",
      "MED_A" := "a",
      "MED_V" := "eu",
      "MED_E" := "e",
      "MED_I" := "i",
      "MED_O" := "o",
      "MED_U" := "u"
    ]
  }

  /** legacy Tlo medials (translit.py:237-257) */
  function TloMedials(): map<string, string> {
    map[
      "MED_AI" := "ai",
      "MED_AU" := "au",
      "MED_IA" := "ia",
      "MED_IAU" := "iau",
      "MED_IEU" := "ieu",
      "MED_IOU" := "iou",
      "MED_IU" := "iu",
      "MED_IE" := "ie",
      "MED_IO" := "io",
      "MED_OI" := "oi",
      "MED_OU" := "ou",
      "MED_UAI" := "uai",
      "MED_UA" := "ua",
      "MED_UE" := "ue",
      "MED_UI" := "ui",
      "MED_A" := "a",
      "MED_V" := "ur",
      "MED_E" := "e",
      "MED_I" := "i",
      "MED_O" := "o",
      "MED_U" := "u"
    ]
  }

  /** legacy Duffus medials (translit.py:362-382) */
  function DuffusMedials(): map<string, string> {
    map[
      "MED_AI" := "ai",
      "MED_AU" := "au",
      "MED_IA" := "ia",
      "MED_IAU" := "iau",
      "MED_IEU" := "ieu",
      "MED_IOU" := "iou",
      "MED_IU" := "iu",
      "MED_IE" := "ie",
      "MED_IO" := "io",
      "MED_OI" := "oi",
      "MED_OU" := "ou",
      "MED_UAI" := "uai",
      "MED_UA" := "ua",
      "MED_UE" := "ue",
      "MED_UI" := "ui",
      "MED_A" := "a",
      "MED_V" := "\U{1E73}",
      "MED_E" := "e",
      "MED_I" := "i",
      "MED_O" := "o",
      "MED_U" := "u"
    ]
  }

  /** legacy Gdpi stop codas (translit.py:66-69) */
  function GdpiStops(): map<string, string> {
    map[
      "COD_P" := "b",
      "COD_K" := "g",
      "COD_H" := "h",
      "COD_T" := "g"
    ]
  }

  /** legacy Ggnn stop codas (translit.py:164-167) */
  function GgnnStops(): map<string, string> {
    map[
      "COD_P" := "p",
      "COD_K" := "k",
      "COD_H" := "h",
      "COD_T" := "t"
    ]
  }

  /** legacy Tlo stop codas (translit.py:266-269) */
  function TloStops(): map<string, string> {
    map[
      "COD_P" := "p",
      "COD_K" := "k",
      "COD_H" := "h",
      "COD_T" := "t"
    ]
  }

  /** legacy Duffus stop codas (translit.py:391-394) */
  function DuffusStops(): map<string, string> {
    map[
      "COD_P" := "p",
      "COD_K" := "k",
      "COD_H" := "h",
      "COD_T" := "t"
    ]
  }

  /** legacy Gdpi nasal codas (translit.py:75-77) */
  function GdpiNasalCodas(): map<string, string> {
    map[
      "COD_M" := "m",
      "COD_NG" := "ng",
      "COD_N" := "ng"
    ]
  }

  /** legacy Ggnn nasal codas (translit.py:173-175) */
  function GgnnNasalCodas(): map<string, string> {
    map[
      "COD_M" := "m",
      "COD_NG" := "ng",
      "COD_N" := "n"
    ]
  }

  /** legacy Tlo nasal codas (translit.py:275-277) */
  function TloNasalCodas(): map<string, string> {
    map[
      "COD_M" := "m",
      "COD_NG" := "ng",
      "COD_N" := "n"
    ]
  }

  /** legacy Duffus nasal codas (translit.py:400-402) */
  function DuffusNasalCodas(): map<string, string> {
    map[
      "COD_M" := "m",
      "COD_NG" := "ng",
      "COD_N" := "n"
    ]
  }

  /** legacy Tlo tone marks (translit.py:292-300) */
  function TloMarks(): map<string, string> {
    map[
      "1" := "",
      "2" := "\U{0301}",
      "3" := "\U{0300}",
      "4" := "",
      "5" := "\U{0302}",
      "6" := "\U{0306}",
      "7" := "\U{0304}",
      "8" := "\U{0302}",
      "0" := ""
    ]
  }

  /** legacy Duffus tone marks (translit.py:417-425) */
  function DuffusMarks(): map<string, string> {
    map[
      "1" := "",
      "2" := "\U{0301}",
      "3" := "\U{0300}",
      "4" := "",
      "5" := "\U{0302}",
      "6" := "\U{0303}",
      "7" := "\U{0304}",
      "8" := "\U{0307}",
      "0" := ""
    ]
  }

}
