/**
 * The progress-analysis handler: the least-squares slope of the weight series
 * (days numbered 0, 1, …, n−1), the trend phrase interpolated into the prompt,
 * and the mapping from the chat-completion outcome to the HTTP response.
 */
module AnalyzeProgress {
  import opened Wrappers
  import opened Profile
  import opened Relay
  import Metrics

  // ---------------------------------------------------------------------------
  // Least-squares slope
  // ---------------------------------------------------------------------------

  /** ΣX over X = 0, 1, …, n−1. */
  function SumX(n: nat): real {
    if n == 0 then 0.0 else SumX(n - 1) + (n - 1) as real
  }

  /** ΣX² over X = 0, 1, …, n−1. */
  function SumX2(n: nat): real {
    if n == 0 then 0.0 else SumX2(n - 1) + (n - 1) as real * (n - 1) as real
  }

  /** Gauss: ΣX = n(n−1)/2. */
  lemma {:induction false} SumXClosedForm(n: nat)
    ensures 2.0 * SumX(n) == n as real * (n as real - 1.0)
  {
    if n > 0 {
      SumXClosedForm(n - 1);
    }
  }

  /** ΣX² = (n−1)n(2n−1)/6. */
  lemma {:induction false} SumX2ClosedForm(n: nat)
    ensures 6.0 * SumX2(n) == (n as real - 1.0) * n as real * (2.0 * n as real - 1.0)
  {
    if n > 0 {
      SumX2ClosedForm(n - 1);
    }
  }

  /** ΣY: the sum of the weights. */
  function SumY(ws: seq<real>): real {
    if ws == [] then 0.0 else SumY(ws[..|ws| - 1]) + ws[|ws| - 1]
  }

  /** ΣXY: each weight times its day index. */
  function SumXY(ws: seq<real>): real {
    if ws == [] then 0.0 else SumXY(ws[..|ws| - 1]) + (|ws| - 1) as real * ws[|ws| - 1]
  }

  /** The denominator `n·ΣX² − (ΣX)²` of the slope. */
  function Denominator(n: nat): real {
    n as real * SumX2(n) - SumX(n) * SumX(n)
  }

  /** The denominator is n²(n²−1)/12, positive from two samples on: the slope never divides by zero. */
  lemma TrendDenominatorPositive(n: nat)
    requires n >= 2
    ensures 12.0 * Denominator(n) == n as real * n as real * (n as real * n as real - 1.0)
    ensures Denominator(n) > 0.0
  {
    DenominatorClosedForm(n);
    DenominatorPositive(n);
  }

  /** 12·(n·ΣX² − (ΣX)²) = n²(n²−1). */
  lemma DenominatorClosedForm(n: nat)
    ensures 12.0 * Denominator(n) == n as real * n as real * (n as real * n as real - 1.0)
  {
    SumXClosedForm(n);
    SumX2ClosedForm(n);
    DenominatorAlgebra(n as real, SumX(n), SumX2(n));
  }

  /** Denominator(n) > 0 for n ≥ 2, stated on the sums themselves. */
  lemma DenominatorPositive(n: nat)
    requires n >= 2
    ensures n as real * SumX2(n) - SumX(n) * SumX(n) > 0.0
  {
    var x, sx, sx2 := n as real, SumX(n), SumX2(n);
    SumXClosedForm(n);
    SumX2ClosedForm(n);
    DenominatorAlgebra(x, sx, sx2);
    QuarticPositive(x, x * sx2 - sx * sx);
  }

  lemma DenominatorAlgebra(x: real, sx: real, sx2: real)
    requires 2.0 * sx == x * (x - 1.0)
    requires 6.0 * sx2 == (x - 1.0) * x * (2.0 * x - 1.0)
    ensures 12.0 * (x * sx2 - sx * sx) == x * x * (x * x - 1.0)
  {
    calc {
      12.0 * (x * sx2 - sx * sx);
      2.0 * x * (6.0 * sx2) - 3.0 * (2.0 * sx) * (2.0 * sx);
      2.0 * x * ((x - 1.0) * x * (2.0 * x - 1.0)) - 3.0 * (x * (x - 1.0)) * (x * (x - 1.0));
      x * x * (x * x - 1.0);
    }
  }

  lemma QuarticPositive(x: real, d: real)
    requires x >= 2.0 && 12.0 * d == x * x * (x * x - 1.0)
    ensures d > 0.0
  {
    assert x * x >= 2.0 * x >= 4.0;
  }

  /** `calculateWeightTrend`: 0 below two samples, otherwise the least-squares slope
      in kg per day of the history. */
  function WeightTrend(ws: seq<real>): (t: real)
    ensures |ws| < 2 ==> t == 0.0
  {
    if |ws| < 2 then 0.0
    else
      var n := |ws|;
      Slope(n as real, SumX(n), SumX2(n), SumY(ws), SumXY(ws))
  }

  /** `(n·ΣXY − ΣX·ΣY) / (n·ΣX² − (ΣX)²)` from the five sums. */
  function Slope(n: real, sx: real, sx2: real, sy: real, sxy: real): real {
    Quotient(n * sxy - sx * sy, n * sx2 - sx * sx)
  }

  /** Real division, characterised by the product it undoes. The slope only divides
      by Denominator(n) for n ≥ 2, which DenominatorPositive shows is never zero, so
      the zero-divisor branch (where JavaScript would give an infinity or NaN) is
      never taken by WeightTrend. */
  function Quotient(x: real, d: real): (q: real)
    ensures d != 0.0 ==> q * d == x
  {
    if d == 0.0 then 0.0 else x / d
  }

  /** ΣY of a linear series `w_i = a + b·i`. */
  lemma {:induction false} LinearSumY(ws: seq<real>, a: real, b: real)
    requires forall i :: 0 <= i < |ws| ==> ws[i] == a + b * i as real
    ensures SumY(ws) == |ws| as real * a + b * SumX(|ws|)
  {
    if ws != [] {
      var n := |ws|;
      var init := ws[..n - 1];
      LinearSumY(init, a, b);
      var m, sx := (n - 1) as real, SumX(n - 1);
      calc {
        SumY(ws);
        SumY(init) + ws[n - 1];
        (m * a + b * sx) + (a + b * m);
        (m + 1.0) * a + b * (sx + m);
        n as real * a + b * SumX(n);
      }
    }
  }

  /** ΣXY of a linear series `w_i = a + b·i`. */
  lemma {:induction false} LinearSumXY(ws: seq<real>, a: real, b: real)
    requires forall i :: 0 <= i < |ws| ==> ws[i] == a + b * i as real
    ensures SumXY(ws) == a * SumX(|ws|) + b * SumX2(|ws|)
  {
    if ws != [] {
      var n := |ws|;
      var init := ws[..n - 1];
      LinearSumXY(init, a, b);
      var m, sx, sx2 := (n - 1) as real, SumX(n - 1), SumX2(n - 1);
      assert ws[n - 1] == a + b * m;
      assert SumXY(ws) == SumXY(init) + m * ws[n - 1];
      AppendLinearTerm(a, b, sx, sx2, m);
    }
  }

  /** A perfectly linear series `w_i = a + b·i` has slope exactly b. */
  lemma {:induction false} TrendOfLinearSeries(ws: seq<real>, a: real, b: real)
    requires |ws| >= 2
    requires forall i :: 0 <= i < |ws| ==> ws[i] == a + b * i as real
    ensures WeightTrend(ws) == b
  {
    LinearSumY(ws, a, b);
    LinearSumXY(ws, a, b);
    TrendFromLinearSums(ws, a, b);
  }

  /** A series whose sums are those of the line `a + b·i` has slope b. */
  lemma {:induction false} TrendFromLinearSums(ws: seq<real>, a: real, b: real)
    requires |ws| >= 2
    requires SumY(ws) == |ws| as real * a + b * SumX(|ws|)
    requires SumXY(ws) == a * SumX(|ws|) + b * SumX2(|ws|)
    ensures WeightTrend(ws) == b
  {
    var n := |ws|;
    var x, sx, sx2, sy, sxy := n as real, SumX(n), SumX2(n), SumY(ws), SumXY(ws);
    assert x * sx2 - sx * sx > 0.0 by {
      DenominatorPositive(n);
    }
    assert sy == x * a + b * sx;
    assert sxy == a * sx + b * sx2;
    SlopeOfLine(x, sx, sx2, sy, sxy, a, b);
    TrendIsSlope(ws);
  }

  lemma TrendIsSlope(ws: seq<real>)
    requires |ws| >= 2
    ensures WeightTrend(ws) == Slope(|ws| as real, SumX(|ws|), SumX2(|ws|), SumY(ws), SumXY(ws))
  {
  }

  /** The slope formula applied to the sums of the line `a + b·x` gives b. */
  lemma SlopeOfLine(n: real, sx: real, sx2: real, sy: real, sxy: real, a: real, b: real)
    requires n * sx2 - sx * sx > 0.0
    requires sy == n * a + b * sx && sxy == a * sx + b * sx2
    ensures Slope(n, sx, sx2, sy, sxy) == b
  {
    var d := n * sx2 - sx * sx;
    var t := Slope(n, sx, sx2, sy, sxy);
    SlopeNumerator(n, sx, sx2, a, b);
    assert t * d == b * d;
    CancelFactor(t, b, d);
  }

  lemma AppendLinearTerm(a: real, b: real, sx: real, sx2: real, m: real)
    ensures (a * sx + b * sx2) + m * (a + b * m) == a * (sx + m) + b * (sx2 + m * m)
  {
  }

  lemma CancelFactor(t: real, b: real, d: real)
    requires d != 0.0 && t * d == b * d
    ensures t == b
  {
    assert (t - b) * d == 0.0;
  }

  lemma SlopeNumerator(nr: real, sx: real, sx2: real, a: real, b: real)
    ensures nr * (a * sx + b * sx2) - sx * (nr * a + b * sx) == b * (nr * sx2 - sx * sx)
  {
  }

  /** A constant weight gives no trend. */
  lemma ConstantSeriesHasNoTrend(ws: seq<real>, w: real)
    requires forall i :: 0 <= i < |ws| ==> ws[i] == w
    ensures WeightTrend(ws) == 0.0
  {
    if |ws| >= 2 {
      TrendOfLinearSeries(ws, w, 0.0);
    }
  }

  /** Three days at 70, 71 and 72 kg: one kilogram per day. */
  lemma TrendExample()
    ensures WeightTrend([70.0, 71.0, 72.0]) == 1.0
    ensures WeightTrend([75.0, 75.0, 75.0]) == 0.0
    ensures WeightTrend([80.0]) == 0.0
  {
    TrendOfLinearSeries([70.0, 71.0, 72.0], 70.0, 1.0);
    ConstantSeriesHasNoTrend([75.0, 75.0, 75.0], 75.0);
  }

  // ---------------------------------------------------------------------------
  // Trend phrase
  // ---------------------------------------------------------------------------

  /** The two interpolated parts of "Tendência: <direction> de <magnitude>kg/semana". */
  datatype TrendPhrase = TrendPhrase(direction: string, magnitude: real)

  /** 'ganho' for a positive slope, 'perda' otherwise (a flat trend included), with
      the absolute value as the magnitude. */
  function DescribeTrend(t: real): (p: TrendPhrase)
    ensures p.direction == "ganho" <==> t > 0.0
    ensures p.direction == "perda" <==> t <= 0.0
    ensures p.magnitude >= 0.0
  {
    TrendPhrase(if t > 0.0 then "ganho" else "perda", Metrics.Abs(t))
  }

  /** The phrase loses nothing: direction and magnitude give back the signed slope. */
  lemma TrendPhraseRoundTrip(t: real)
    ensures var p := DescribeTrend(t);
      (if p.direction == "ganho" then p.magnitude else -p.magnitude) == t
  {
  }

  // ---------------------------------------------------------------------------
  // Handler
  // ---------------------------------------------------------------------------

  /** What the system prompt interpolates: the goal label, the first and the last
      weight, the trend phrase and the list of days. */
  datatype ProgressPrompt = ProgressPrompt(
    goal: string,
    firstWeight: real,
    lastWeight: real,
    trend: TrendPhrase,
    days: seq<WeeklySample>)

  const PROGRESS_ERROR := "Erro ao analisar progresso"
  const PROGRESS_REQUEST := "Analise meu progresso semanal e faça recomendações."

  /** `weeklyStats.map(s => s.weight)`. */
  function Weights(weekly: seq<WeeklySample>): (ws: seq<real>)
    ensures |ws| == |weekly| && forall i :: 0 <= i < |ws| ==> ws[i] == weekly[i].weight
  {
    seq(|weekly|, i requires 0 <= i < |weekly| => weekly[i].weight)
  }

  /** `POST /api/analyze-progress`. An empty history makes `weeklyStats[0].weight`
      throw while the prompt is built, before any call; every failure is the same 500;
      a parsed payload is returned as it is. */
  function AnalyzeProgress(u: User, weekly: seq<WeeklySample>,
                           service: ChatRequest<ProgressPrompt> -> Upstream,
                           parse: string -> Option<Json>): (r: Exchange<ProgressPrompt>)
    ensures r.sent.None? <==> weekly == []
    ensures r.sent.Some? ==> var q := r.sent.value;
      q.model == MODEL && q.maxTokens == 600 && q.temperature == 0.5 &&
      q.user == Text(PROGRESS_REQUEST) &&
      q.system == ProgressPrompt(GoalLabel(u.goal), weekly[0].weight, weekly[|weekly| - 1].weight,
                                 DescribeTrend(WeightTrend(Weights(weekly))), weekly)
    ensures r.response.status == 200 || r.response.status == 500
    ensures r.response.status == 200 <==>
      r.sent.Some? && ParsedReply(service(r.sent.value), '{', '}', parse).Some?
    ensures r.response.status == 200 ==>
      r.response.body == ParsedReply(service(r.sent.value), '{', '}', parse).value
    ensures r.response.status == 500 ==> r.response == ErrorResponse(500, PROGRESS_ERROR)
  {
    if weekly == [] then Exchange(None, ErrorResponse(500, PROGRESS_ERROR))
    else
      var prompt := ProgressPrompt(GoalLabel(u.goal), weekly[0].weight, weekly[|weekly| - 1].weight,
                                   DescribeTrend(WeightTrend(Weights(weekly))), weekly);
      var q := ChatRequest(MODEL, prompt, Text(PROGRESS_REQUEST), 600, 0.5);
      match ParsedReply(service(q), '{', '}', parse)
      case Some(analysis) => Exchange(Some(q), Response(200, analysis))
      case None => Exchange(Some(q), ErrorResponse(500, PROGRESS_ERROR))
  }

  /** A reply in which no '{' comes before a '}' is a 500, whatever `JSON.parse` would do. */
  lemma ReplyWithoutObjectFails(u: User, weekly: seq<WeeklySample>,
                                service: ChatRequest<ProgressPrompt> -> Upstream,
                                parse: string -> Option<Json>)
    requires var r := AnalyzeProgress(u, weekly, service, parse);
      r.sent.Some? && service(r.sent.value).Reply? &&
      var text := service(r.sent.value).content;
      forall i, j :: 0 <= i < j < |text| && text[i] == '{' ==> text[j] != '}'
    ensures AnalyzeProgress(u, weekly, service, parse).response == ErrorResponse(500, PROGRESS_ERROR)
  {
  }
}
