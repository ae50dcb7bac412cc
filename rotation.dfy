/** The round-robin rotation through the ad list that repeated calls of ShowNextAd make. */
module AdvertRotation {
  import opened AdvertConfig
  import opened MessageFormat
  import opened AdvertState

  /** The state after k consecutive ticks, starting from a usable index. */
  function Ticks(p: Plugin, k: nat): (r: Plugin)
    requires InBounds(p)
    ensures InBounds(r) && (Valid(r) <==> Valid(p))
    ensures r.config == p.config && r.token == p.token && r.cancelled == p.cancelled
    ensures |r.sent| == |p.sent| + (if |p.config.ads| == 0 then 0 else k)
    decreases k
  {
    if k == 0 then p else Ticks(ShowNextAd(p).after, k - 1)
  }

  /** The k lines shown by a rotation that starts at ad `start`. */
  function Rotation(cfg: MainConfigModel, start: nat, k: nat): (s: seq<string>)
    requires |cfg.ads| > 0
  {
    seq(k, i requires 0 <= i < k => FormatMessage(cfg.chatPrefix, cfg.ads[(start + i) % |cfg.ads|]))
  }

  /** Every ad of a list, formatted, in list order. */
  function FormatAll(prefix: string, ads: seq<string>): (s: seq<string>)
  {
    seq(|ads|, i requires 0 <= i < |ads| => FormatMessage(prefix, ads[i]))
  }

  lemma MulAtLeast(d: nat, n: nat)
    requires d >= 1
    ensures d * n >= n
  {
  }

  /** Euclidean remainder is determined by any quotient-remainder split. */
  lemma ModUnique(x: int, n: int, q: int, r: int)
    requires n > 0 && 0 <= r < n && x == q * n + r
    ensures x % n == r
  {
    var q', r' := x / n, x % n;
    assert x == q' * n + r';
    assert (q - q') * n == r' - r;
    if q > q' {
      MulAtLeast(q - q', n);
    } else if q < q' {
      MulAtLeast(q' - q, n);
    }
  }

  lemma ModAddLeft(a: nat, b: nat, n: nat)
    requires n > 0
    ensures ((a % n) + b) % n == (a + b) % n
  {
    var q, r := a / n, a % n;
    var t, s := (r + b) / n, (r + b) % n;
    assert a == q * n + r;
    assert r + b == t * n + s;
    assert a + b == (q + t) * n + s by {
      assert (q + t) * n == q * n + t * n;
    }
    ModUnique(a + b, n, q + t, s);
  }

  lemma WrapOnce(p: Plugin, n: nat, x: nat)
    requires InBounds(p) && |p.config.ads| == n > 0 && x == (p.index + n) % n
    ensures x == p.index
  {
    ModUnique(p.index + n, n, 1, p.index);
  }

  /** With an empty ad list a tick changes nothing, however often it is repeated. */
  lemma {:induction false} TicksOnEmptyList(p: Plugin, k: nat)
    requires |p.config.ads| == 0
    ensures Ticks(p, k) == p
    decreases k
  {
    if k > 0 {
      TicksOnEmptyList(ShowNextAd(p).after, k - 1);
    }
  }

  /** A rotation from `start` is the starting ad followed by a rotation from the next one. */
  lemma RotationStep(cfg: MainConfigModel, start: nat, k: nat)
    requires start < |cfg.ads|
    ensures [FormatMessage(cfg.chatPrefix, cfg.ads[start])] + Rotation(cfg, (start + 1) % |cfg.ads|, k)
      == Rotation(cfg, start, k + 1)
  {
    var n := |cfg.ads|;
    var head := FormatMessage(cfg.chatPrefix, cfg.ads[start]);
    var rest := Rotation(cfg, (start + 1) % n, k);
    var all := Rotation(cfg, start, k + 1);
    forall i | 0 <= i < k + 1
      ensures ([head] + rest)[i] == all[i]
    {
      if i == 0 {
        ModUnique(start, n, 0, start);
      } else {
        ModAddLeft(start + 1, i - 1, n);
      }
    }
  }

  /** After k ticks the index has moved k places round the list, and the lines sent are
      the k ads from the starting one on, in order. */
  lemma {:induction false} TicksRotate(p: Plugin, k: nat)
    requires InBounds(p) && |p.config.ads| > 0
    ensures Ticks(p, k).index == (p.index + k) % |p.config.ads|
    ensures Ticks(p, k).sent == p.sent + Rotation(p.config, p.index, k)
    decreases k
  {
    var n := |p.config.ads|;
    if k == 0 {
      ModUnique(p.index, n, 0, p.index);
      assert Rotation(p.config, p.index, 0) == [];
    } else {
      var q := ShowNextAd(p).after;
      assert Ticks(p, k) == Ticks(q, k - 1);
      TicksRotate(q, k - 1);
      ModAddLeft(p.index + 1, k - 1, n);
      RotationStep(p.config, p.index, k - 1);
    }
  }

  /** The k-th tick (counting from 0) sends the ad k places after the starting one. */
  lemma KthTickSends(p: Plugin, k: nat)
    requires InBounds(p) && |p.config.ads| > 0
    ensures |Ticks(p, k + 1).sent| == |p.sent| + k + 1
    ensures Ticks(p, k + 1).sent[|p.sent| + k] ==
      FormatMessage(p.config.chatPrefix, p.config.ads[(p.index + k) % |p.config.ads|])
  {
    TicksRotate(p, k + 1);
  }

  /** A rotation of |ads| lines from `start` is the list rotated to begin at `start`. */
  lemma RotationFullCycle(cfg: MainConfigModel, start: nat)
    requires start < |cfg.ads|
    ensures Rotation(cfg, start, |cfg.ads|) == FormatAll(cfg.chatPrefix, cfg.ads[start..] + cfg.ads[..start])
  {
    var n := |cfg.ads|;
    var rot := cfg.ads[start..] + cfg.ads[..start];
    var r := Rotation(cfg, start, n);
    var f := FormatAll(cfg.chatPrefix, rot);
    forall i | 0 <= i < n
      ensures r[i] == f[i]
    {
      if start + i < n {
        ModUnique(start + i, n, 0, start + i);
        assert rot[i] == cfg.ads[start + i];
      } else {
        ModUnique(start + i, n, 1, start + i - n);
        assert rot[i] == cfg.ads[start + i - n];
      }
    }
  }

  lemma CycleIndex(p: Plugin)
    requires InBounds(p) && |p.config.ads| > 0
    ensures Ticks(p, |p.config.ads|).index == p.index
  {
    var n := |p.config.ads|;
    var x := Ticks(p, n).index;
    assert x == (p.index + n) % n by {
      TicksRotate(p, n);
    }
    WrapOnce(p, n, x);
  }

  lemma CycleSent(p: Plugin)
    requires InBounds(p) && |p.config.ads| > 0
    ensures Ticks(p, |p.config.ads|).sent ==
      p.sent + FormatAll(p.config.chatPrefix, p.config.ads[p.index..] + p.config.ads[..p.index])
  {
    TicksRotate(p, |p.config.ads|);
    RotationFullCycle(p.config, p.index);
  }

  /** One full cycle of |ads| ticks brings the index back to where it started and shows
      every ad exactly once: from the starting ad to the end of the list, then from the
      first ad up to the starting one. */
  lemma FullCycle(p: Plugin)
    requires InBounds(p) && |p.config.ads| > 0
    ensures Ticks(p, |p.config.ads|) ==
      p.(sent := p.sent + FormatAll(p.config.chatPrefix, p.config.ads[p.index..] + p.config.ads[..p.index]))
  {
    CycleIndex(p);
    CycleSent(p);
  }

  /** The rotation is periodic: k ticks and |ads| + k ticks leave the same index. */
  lemma RotationPeriodic(p: Plugin, k: nat)
    requires InBounds(p) && |p.config.ads| > 0
    ensures Ticks(p, k + |p.config.ads|).index == Ticks(p, k).index
  {
    var n := |p.config.ads|;
    TicksRotate(p, k);
    TicksRotate(p, k + n);
    var r := (p.index + k) % n;
    assert p.index + k == ((p.index + k) / n) * n + r;
    assert p.index + k + n == ((p.index + k) / n + 1) * n + r;
    ModUnique(p.index + k + n, n, (p.index + k) / n + 1, r);
  }
}
