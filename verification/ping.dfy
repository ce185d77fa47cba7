/**
 * The /ping command's classification of the API latency (milliseconds)
 * into five bands, shown as a connection-quality field and a status footer.
 */
module Ping {

  /** The upper bounds (exclusive) of the first four bands; the fifth band is unbounded. */
  const Bounds: seq<int> := [50, 100, 200, 500]

  const QualityLabels: seq<string> := [
    "🟢 **優秀** - 超高速！",
    "🟢 **良好** - スムーズに動作",
    "🟡 **普通** - 軽微な遅延",
    "🟠 **悪い** - 目立つ遅延",
    "🔴 **危険** - 深刻な遅延問題"
  ]

  const StatusLabels: seq<string> := [
    "ボットは最適な性能で動作中",
    "ボットは正常に動作中",
    "ボットは軽微な遅延が発生中",
    "ボットの性能が低下している可能性",
    "ボットに接続問題が発生中"
  ]

  /**
   * The band of a latency: the first band whose bound it stays below, and
   * the last band when it reaches every bound. Every latency is in exactly
   * one band: below the band's bound and at or above the previous one.
   */
  function Band(latency: int): (b: nat)
    ensures b < 5
    ensures b < 4 ==> latency < Bounds[b]
    ensures b > 0 ==> latency >= Bounds[b - 1]
  {
    if latency < 50 then 0
    else if latency < 100 then 1
    else if latency < 200 then 2
    else if latency < 500 then 3
    else 4
  }

  /** A negative latency lands in the first band. */
  lemma NegativeLatencyFirstBand(latency: int)
    requires latency < 0
    ensures Band(latency) == 0
  {
  }

  /** A longer latency never gets a better band. */
  lemma BandMonotone(a: int, b: int)
    requires a <= b
    ensures Band(a) <= Band(b)
  {
  }

  /** getConnectionQuality: the quality label of the latency's band. */
  function ConnectionQuality(latency: int): (quality: string)
    ensures quality == QualityLabels[Band(latency)]
  {
    if latency < 50 then "🟢 **優秀** - 超高速！"
    else if latency < 100 then "🟢 **良好** - スムーズに動作"
    else if latency < 200 then "🟡 **普通** - 軽微な遅延"
    else if latency < 500 then "🟠 **悪い** - 目立つ遅延"
    else "🔴 **危険** - 深刻な遅延問題"
  }

  /** getStatusMessage: the status message of the latency's band. */
  function StatusMessage(latency: int): (message: string)
    ensures message == StatusLabels[Band(latency)]
  {
    if latency < 50 then "ボットは最適な性能で動作中"
    else if latency < 100 then "ボットは正常に動作中"
    else if latency < 200 then "ボットは軽微な遅延が発生中"
    else if latency < 500 then "ボットの性能が低下している可能性"
    else "ボットに接続問題が発生中"
  }

  /**
   * The quality field and the footer always describe the same band: two
   * latencies get the same status message exactly when they get the same
   * quality label, since the status messages are pairwise distinct.
   */
  lemma {:induction false} FieldAndFooterAgree(a: int, b: int)
    ensures StatusMessage(a) == StatusMessage(b) <==> Band(a) == Band(b)
  {
    var i, j := Band(a), Band(b);
    if i != j {
      assert StatusLabels[i] != StatusLabels[j] by {
        assert |StatusLabels[i]| != |StatusLabels[j]| || StatusLabels[i][3] != StatusLabels[j][3]
               || StatusLabels[i][4] != StatusLabels[j][4];
      }
    }
  }
}
