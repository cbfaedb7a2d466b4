/** The dashboard's classifiers (components/Dashboard.tsx): total functions from
    the analysis fields to styles, labels and icons. Each accepts any string,
    because the result reaching the dashboard is an unchecked cast. */
module Dashboard {
  import opened Wrappers
  import opened Types

  const RedStyle := "text-red-600 bg-red-100 border-red-200"
  const YellowStyle := "text-yellow-600 bg-yellow-100 border-yellow-200"
  const GreenStyle := "text-green-600 bg-green-100 border-green-200"
  const DefaultStyle := "text-gray-600 bg-gray-100"

  function StyleOf(x: Resistance): string {
    match x
    case Red => RedStyle
    case Yellow => YellowStyle
    case Green => GreenStyle
  }

  /** Style of the resistance badge: the level's own style for the three known
      literals, the gray default for every other string. */
  function ResistanceColor(level: string): (r: string)
    ensures forall x :: ParseResistance(level) == Some(x) ==> r == StyleOf(x)
    ensures ParseResistance(level).None? ==> r == DefaultStyle
  {
    match level
    case "Red" => RedStyle
    case "Yellow" => YellowStyle
    case "Green" => GreenStyle
    case _ => DefaultStyle
  }

  const RedBar := "bg-red-500"
  const YellowBar := "bg-yellow-500"
  const GreenBar := "bg-green-500"

  /** Position of a bar colour on the cold-to-warm scale. */
  function BarRank(c: string): int {
    if c == RedBar then 0 else if c == YellowBar then 1 else 2
  }

  /** Colour band of the trust bar. */
  function ScoreColor(score: int): (r: string)
    ensures r == RedBar <==> score < 40
    ensures r == YellowBar <==> 40 <= score < 70
    ensures r == GreenBar <==> 70 <= score
  {
    if score < 40 then RedBar
    else if score < 70 then YellowBar
    else GreenBar
  }

  /** A higher score never gets a colder band. */
  lemma ScoreColorMonotone(a: int, b: int)
    requires a <= b
    ensures BarRank(ScoreColor(a)) <= BarRank(ScoreColor(b))
  {
  }

  function ChineseProbability(p: Probability): string {
    match p
    case Low => "低"
    case Medium => "中"
    case High => "高"
  }

  /** Probability shown in Chinese when it is one of the three literals, and
      passed through verbatim otherwise. */
  function TranslateProb(prob: string): (r: string)
    ensures forall p :: ParseProbability(prob) == Some(p) ==> r == ChineseProbability(p)
    ensures ParseProbability(prob).None? ==> r == prob
  {
    var table := map["Low" := "低", "Medium" := "中", "High" := "高"];
    if prob in table && table[prob] != "" then table[prob] else prob
  }

  const RedLabel := "红色警戒"
  const YellowLabel := "黄色观望"
  const GreenLabel := "绿色畅通"

  /** Text of the resistance badge: red and yellow have their own labels and
      every other value, known or not, reads as green. */
  function ResistanceLabel(level: string): (r: string)
    ensures r == RedLabel <==> level == ResistanceName(Red)
    ensures r == YellowLabel <==> level == ResistanceName(Yellow)
    ensures r == GreenLabel <==> ParseResistance(level) != Some(Red) && ParseResistance(level) != Some(Yellow)
  {
    if level == "Red" then RedLabel
    else if level == "Yellow" then YellowLabel
    else GreenLabel
  }

  datatype Icon = ShieldAlert | Shield | ShieldCheck

  function IconOf(x: Resistance): Icon {
    match x
    case Red => ShieldAlert
    case Yellow => Shield
    case Green => ShieldCheck
  }

  /** The icons the badge renders: one conditional element per known level, in
      the order the source writes them. */
  function ResistanceIcons(level: string): (r: seq<Icon>)
    ensures |r| <= 1
    ensures |r| == 1 <==> ParseResistance(level).Some?
    ensures forall x :: ParseResistance(level) == Some(x) ==> r == [IconOf(x)]
  {
    (if level == "Red" then [ShieldAlert] else [])
    + (if level == "Yellow" then [Shield] else [])
    + (if level == "Green" then [ShieldCheck] else [])
  }

  /** The phases of the emotion radar, in display order. */
  const Phases: seq<string> := ["Start", "Middle", "End"]

  /** The emotion shown for one phase: a chained conditional that falls back to
      the closing emotion for anything that is not Start or Middle. */
  function EmotionFor(phase: string, e: Emotions): string {
    if phase == "Start" then e.start
    else if phase == "Middle" then e.middle
    else e.end
  }

  function PhaseLabel(phase: string): string {
    if phase == "Start" then "破冰期"
    else if phase == "Middle" then "展开期"
    else "收尾期"
  }

  /** The radar's three cards, left to right. */
  function EmotionRadar(e: Emotions): (r: seq<(string, string)>)
    ensures r == [("破冰期", e.start), ("展开期", e.middle), ("收尾期", e.end)]
  {
    seq(|Phases|, i requires 0 <= i < |Phases| => (PhaseLabel(Phases[i]), EmotionFor(Phases[i], e)))
  }
}
