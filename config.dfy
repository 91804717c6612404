/** The derived state that `Config.__init__` (config.py) builds from the
    parsed configuration values: the volume and frequency lists split out of
    their comma-separated entries, the random-mode grid, the initial
    staircase state and the length of one trial. */
module Configuration {

  datatype Option<T> = None | Some(value: T)

  /** The two values of `staircase_mode`: "top_to_bottom" and "bottom_to_top". */
  datatype Direction = TopToBottom | BottomToTop

  /** The two values of `test_mode` that the program acts on. */
  const RandomMode: string := "random"
  const StaircaseMode: string := "staircase"

  /** The fixed staircase anchors: top and bottom frequency, largest and smallest step. */
  datatype StairParams = StairParams(top: int, bottom: int, maxStep: int, minStep: int)

  /** The durations (in seconds) that the trial loop compares elapsed time against. */
  datatype Timing = Timing(testDuration: real, beepDuration: real, pauseBeepStimuli: real)

  // ---------------------------------------------------------------------------
  // Splitting a comma-separated entry: raw.replace(' ', '').split(',')
  // ---------------------------------------------------------------------------

  /** `s.replace(' ', '')`: the string without its spaces, every other
      character kept as often as it occurs. */
  function RemoveSpaces(s: string): (r: string)
    ensures ' ' !in r
    ensures forall c :: c != ' ' ==> multiset(r)[c] == multiset(s)[c]
    ensures forall c :: c in r ==> c in s
    ensures ' ' !in s ==> r == s
  {
    if s == [] then []
    else
      assert s == [s[0]] + s[1..];
      (if s[0] == ' ' then [] else [s[0]]) + RemoveSpaces(s[1..])
  }

  /** Removing spaces works piece by piece, so the characters that are kept
      stay in their order; with the two cases of a single character
      (`RemoveSpaces`'s ensures) this fixes the result. */
  lemma {:induction false} RemoveSpacesAppend(a: string, b: string)
    ensures RemoveSpaces(a + b) == RemoveSpaces(a) + RemoveSpaces(b)
    decreases |a|
  {
    if a != [] {
      var head := if a[0] == ' ' then [] else [a[0]];
      assert (a + b)[0] == a[0];
      assert (a + b)[1..] == a[1..] + b;
      assert RemoveSpaces(a + b) == head + RemoveSpaces(a[1..] + b);
      RemoveSpacesAppend(a[1..], b);
      assert RemoveSpaces(a) == head + RemoveSpaces(a[1..]);
    } else {
      assert a + b == b;
    }
  }

  /** `sep.join(pieces)`. */
  function Join(pieces: seq<string>, sep: char): string
  {
    if pieces == [] then []
    else if |pieces| == 1 then pieces[0]
    else pieces[0] + [sep] + Join(pieces[1..], sep)
  }

  /** `s.split(sep)`: the pieces between the occurrences of `sep`, read left to right. */
  function Split(s: string, sep: char): (r: seq<string>)
    ensures |r| >= 1
    decreases |s|
  {
    if s == [] then [[]]
    else
      var rest := Split(s[1..], sep);
      if s[0] == sep then [[]] + rest
      else [[s[0]] + rest[0]] + rest[1..]
  }

  /** What `split` promises: one more piece than there are separators (so
      never an empty list), no piece holding a separator or a character
      absent from `s`, and the pieces joined back with `sep` give `s`. */
  lemma SplitSpec(s: string, sep: char)
    ensures |Split(s, sep)| == multiset(s)[sep] + 1
    ensures forall k :: 0 <= k < |Split(s, sep)| ==> sep !in Split(s, sep)[k]
    ensures forall k, c :: 0 <= k < |Split(s, sep)| && c in Split(s, sep)[k] ==> c in s
    ensures Join(Split(s, sep), sep) == s
  {
    SplitCount(s, sep);
    SplitPiecesFrom(s, sep);
    SplitJoinsBack(s, sep);
  }

  lemma {:induction false} SplitCount(s: string, sep: char)
    ensures |Split(s, sep)| == multiset(s)[sep] + 1
    decreases |s|
  {
    if s != [] {
      SplitCount(s[1..], sep);
      assert s == [s[0]] + s[1..];
    }
  }

  lemma {:induction false} SplitPiecesFrom(s: string, sep: char)
    ensures forall k :: 0 <= k < |Split(s, sep)| ==> sep !in Split(s, sep)[k]
    ensures forall k, c :: 0 <= k < |Split(s, sep)| && c in Split(s, sep)[k] ==> c in s
    decreases |s|
  {
    if s != [] {
      SplitPiecesFrom(s[1..], sep);
      var rest := Split(s[1..], sep);
      var r := Split(s, sep);
      assert forall c :: c in s[1..] ==> c in s;
      if s[0] == sep {
        assert forall k :: 1 <= k < |r| ==> r[k] == rest[k - 1];
      } else {
        assert forall k :: 1 <= k < |r| ==> r[k] == rest[k];
        assert r[0] == [s[0]] + rest[0];
      }
    }
  }

  lemma {:induction false} SplitJoinsBack(s: string, sep: char)
    ensures Join(Split(s, sep), sep) == s
    decreases |s|
  {
    if s != [] {
      SplitJoinsBack(s[1..], sep);
      var rest := Split(s[1..], sep);
      var r := Split(s, sep);
      assert s == [s[0]] + s[1..];
      if s[0] == sep {
        assert r[1..] == rest;
      } else {
        assert r[1..] == rest[1..];
        if |rest| > 1 {
          assert Join(rest, sep) == rest[0] + [sep] + Join(rest[1..], sep);
        }
      }
    }
  }

  /** Splitting a piece without separators followed by more text: the piece
      is glued to the first piece of the rest. */
  lemma {:induction false} SplitPrefix(p: string, s: string, sep: char)
    requires sep !in p
    ensures Split(p + s, sep) == [p + Split(s, sep)[0]] + Split(s, sep)[1..]
    decreases |p|
  {
    if p != [] {
      assert (p + s)[1..] == p[1..] + s;
      assert (p + s)[0] == p[0];
      SplitPrefix(p[1..], s, sep);
      assert [p[0]] + (p[1..] + Split(s, sep)[0]) == p + Split(s, sep)[0];
    } else {
      assert p + s == s;
      assert p + Split(s, sep)[0] == Split(s, sep)[0];
      assert Split(s, sep) == [Split(s, sep)[0]] + Split(s, sep)[1..];
    }
  }

  /** Splitting undoes joining, for a non-empty list of pieces without separators. */
  lemma {:induction false} SplitJoin(pieces: seq<string>, sep: char)
    requires |pieces| >= 1
    requires forall k :: 0 <= k < |pieces| ==> sep !in pieces[k]
    ensures Split(Join(pieces, sep), sep) == pieces
    decreases |pieces|
  {
    if |pieces| == 1 {
      SplitPrefix(pieces[0], [], sep);
      assert pieces[0] + [] == pieces[0];
    } else {
      var tail := Join(pieces[1..], sep);
      SplitJoin(pieces[1..], sep);
      SplitPrefix(pieces[0], [sep] + tail, sep);
      assert ([sep] + tail)[1..] == tail;
      assert pieces[0] + [sep] + tail == pieces[0] + ([sep] + tail);
      assert Split([sep] + tail, sep) == [[]] + pieces[1..];
      assert pieces[0] + [] == pieces[0];
    }
  }

  /** The pieces of one list entry, as config.py:27 and :29 take them. */
  function Pieces(raw: string): (r: seq<string>)
    ensures |r| == multiset(raw)[','] + 1
    ensures forall k :: 0 <= k < |r| ==> ',' !in r[k] && ' ' !in r[k]
    ensures Join(r, ',') == RemoveSpaces(raw)
  {
    SplitSpec(RemoveSpaces(raw), ',');
    Split(RemoveSpaces(raw), ',')
  }

  /** Python's `int(x)` on a float: truncation toward zero. */
  function Truncate(x: real): (r: int)
    ensures 0.0 <= x ==> r as real <= x < r as real + 1.0
    ensures x < 0.0 ==> r as real - 1.0 < x <= r as real
  {
    if x >= 0.0 then x.Floor else -((-x).Floor)
  }

  /** `self.stimuli_volumes` (config.py:27): `float` of every piece, in order. */
  function ParseVolumes(raw: string, toFloat: string -> real): (r: seq<real>)
    ensures |r| == |Pieces(raw)|
    ensures forall k :: 0 <= k < |r| ==> r[k] == toFloat(Pieces(raw)[k])
  {
    var ps := Pieces(raw);
    seq(|ps|, k requires 0 <= k < |ps| => toFloat(ps[k]))
  }

  /** `self.stimuli_frequencies` (config.py:29): `int(float(...))` of every piece, in order. */
  function ParseFrequencies(raw: string, toFloat: string -> real): (r: seq<int>)
    ensures |r| == |Pieces(raw)|
    ensures forall k :: 0 <= k < |r| ==> r[k] == Truncate(toFloat(Pieces(raw)[k]))
  {
    var ps := Pieces(raw);
    seq(|ps|, k requires 0 <= k < |ps| => Truncate(toFloat(ps[k])))
  }

  // ---------------------------------------------------------------------------
  // The random-mode grid: np.meshgrid(volumes, frequencies, indexing='xy'), flattened
  // ---------------------------------------------------------------------------

  /** `np.meshgrid(xs, ys, indexing='xy')`: two arrays of shape (|ys|, |xs|);
      the first repeats `xs` in every row, the second holds `ys[i]` all along row `i`. */
  function Meshgrid<X, Y>(xs: seq<X>, ys: seq<Y>): (r: (seq<seq<X>>, seq<seq<Y>>))
    ensures |r.0| == |ys| && |r.1| == |ys|
    ensures forall i :: 0 <= i < |ys| ==> |r.0[i]| == |xs| && |r.1[i]| == |xs|
    ensures forall i, j :: 0 <= i < |ys| && 0 <= j < |xs| ==> r.0[i][j] == xs[j] && r.1[i][j] == ys[i]
  {
    (seq(|ys|, _ => xs), seq(|ys|, i requires 0 <= i < |ys| => seq(|xs|, _ => ys[i])))
  }

  /** `ndarray.flatten()`: the rows of a two-dimensional array one after the other. */
  function Flatten<T>(rows: seq<seq<T>>): (r: seq<T>)
    ensures forall i, x :: 0 <= i < |rows| && x in rows[i] ==> x in r
    ensures forall x :: x in r ==> exists i :: 0 <= i < |rows| && x in rows[i]
  {
    if rows == [] then [] else rows[0] + Flatten(rows[1..])
  }

  /** Flattening rows of width `m` puts row `i`, column `j` at position `i * m + j`. */
  lemma {:induction false} FlattenAt<T>(rows: seq<seq<T>>, m: nat, i: nat, j: nat)
    requires forall r :: 0 <= r < |rows| ==> |rows[r]| == m
    requires i < |rows| && j < m
    ensures |Flatten(rows)| == |rows| * m
    ensures i * m + j < |Flatten(rows)| && Flatten(rows)[i * m + j] == rows[i][j]
    decreases |rows|
  {
    FlattenLength(rows, m);
    if i > 0 {
      FlattenAt(rows[1..], m, i - 1, j);
      assert i * m + j == m + ((i - 1) * m + j);
    }
  }

  lemma {:induction false} FlattenLength<T>(rows: seq<seq<T>>, m: nat)
    requires forall r :: 0 <= r < |rows| ==> |rows[r]| == m
    ensures |Flatten(rows)| == |rows| * m
    decreases |rows|
  {
    if rows != [] {
      FlattenLength(rows[1..], m);
      assert |rows| * m == m + (|rows| - 1) * m;
    }
  }

  /** `self.volumes` in random mode (config.py:54-55): one entry per volume-frequency pair. */
  function GridVolumes(vs: seq<real>, fs: seq<int>): (r: seq<real>)
    ensures |r| == |vs| * |fs|
  {
    FlattenLength(Meshgrid(vs, fs).0, |vs|);
    Flatten(Meshgrid(vs, fs).0)
  }

  /** `self.frequencies` in random mode (config.py:54, 56): one entry per volume-frequency pair. */
  function GridFrequencies(vs: seq<real>, fs: seq<int>): (r: seq<int>)
    ensures |r| == |vs| * |fs|
  {
    FlattenLength(Meshgrid(vs, fs).1, |vs|);
    Flatten(Meshgrid(vs, fs).1)
  }

  /** Row and column of a position in a row-major array with rows of width `m`. */
  lemma DivMod(k: nat, m: nat, n: nat)
    requires k < m * n
    ensures 0 < m && k / m < n && k % m < m && (k / m) * m + k % m == k
  {
  }

  /** Every pair of a volume index `j` and a frequency index `i` sits at
      position `i * m + j` of the flattened grid. */
  lemma GridPairAt(vs: seq<real>, fs: seq<int>, j: nat, i: nat)
    requires j < |vs| && i < |fs|
    ensures i * |vs| + j < |vs| * |fs|
    ensures GridVolumes(vs, fs)[i * |vs| + j] == vs[j]
    ensures GridFrequencies(vs, fs)[i * |vs| + j] == fs[i]
  {
    FlattenAt(Meshgrid(vs, fs).0, |vs|, i, j);
    FlattenAt(Meshgrid(vs, fs).1, |vs|, i, j);
  }

  /** Position `k` of the flattened grid holds volume `vs[k mod m]` with
      frequency `fs[k div m]`, where `m` is the number of volumes. */
  lemma GridAt(vs: seq<real>, fs: seq<int>, k: nat)
    requires k < |vs| * |fs|
    ensures 0 < |vs| && k % |vs| < |vs| && k / |vs| < |fs|
    ensures GridVolumes(vs, fs)[k] == vs[k % |vs|]
    ensures GridFrequencies(vs, fs)[k] == fs[k / |vs|]
  {
    var m := |vs|;
    DivMod(k, m, |fs|);
    var i, j := k / m, k % m;
    assert i * m + j == k;
    GridPairAt(vs, fs, j, i);
  }

  predicate NoDuplicates<T(==)>(s: seq<T>)
  {
    forall a, b :: 0 <= a < b < |s| ==> s[a] != s[b]
  }

  /** With no repeated volume and no repeated frequency, each
      volume-frequency pair occurs at exactly one position of the grid. */
  lemma GridPairOnce(vs: seq<real>, fs: seq<int>, j: nat, i: nat, k: nat)
    requires NoDuplicates(vs) && NoDuplicates(fs)
    requires j < |vs| && i < |fs| && k < |vs| * |fs|
    requires GridVolumes(vs, fs)[k] == vs[j] && GridFrequencies(vs, fs)[k] == fs[i]
    ensures k == i * |vs| + j
  {
    GridAt(vs, fs, k);
    DivMod(k, |vs|, |fs|);
  }

  // ---------------------------------------------------------------------------
  // The configuration object
  // ---------------------------------------------------------------------------

  /** `Config`, restricted to what the trial logic reads. Every field is set
      once by the constructor except the two staircase controller fields,
      which `get_next_test` updates in place. */
  class Config {
    const roundsMax: int
    const roundsMin: int
    const testMode: string
    const beepDuration: real
    const stimuliDuration: real
    const stimuliVolumes: seq<real>
    const stimuliFrequencies: seq<int>
    const staircaseTopFrequency: int
    const staircaseBottomFrequency: int
    const staircaseMaxStep: int
    const staircaseMinStep: int
    const pauseBeepStimuli: real
    const pauseStart: real
    const pauseEnd: real
    const testDuration: real
    /** The flattened grid; empty stands for the attribute not being set (modes other than random). */
    const volumes: seq<real>
    const frequencies: seq<int>
    /** `staircase_mode`; None stands for the attribute not being set (modes other than staircase). */
    var staircaseMode: Option<Direction>
    /** `stimuli_staircase_current_step`. */
    var currentStep: int

    ghost predicate Valid()
      reads this
    {
      && (staircaseMode.Some? <==> testMode == StaircaseMode)
      && |stimuliVolumes| >= 1 && |stimuliFrequencies| >= 1
      && (testMode == RandomMode ==> |volumes| == |frequencies| && |volumes| >= 1)
    }

    function Params(): StairParams
    {
      StairParams(staircaseTopFrequency, staircaseBottomFrequency, staircaseMaxStep, staircaseMinStep)
    }

    function Durations(): Timing
    {
      Timing(testDuration, beepDuration, pauseBeepStimuli)
    }

    /** The parsed values come in as parameters; `toFloat` is Python's
        `float()` applied to one list piece. */
    constructor (roundsMax: int, roundsMin: int, testMode: string,
                 beepDuration: real, stimuliDuration: real,
                 rawVolumes: string, rawFrequencies: string, toFloat: string -> real,
                 topFrequency: int, bottomFrequency: int, maxStep: int, minStep: int,
                 pauseBeepStimuli: real, pauseStart: real, pauseEnd: real)
      ensures Valid()
      ensures this.roundsMax == roundsMax && this.roundsMin == roundsMin && this.testMode == testMode
      ensures this.beepDuration == beepDuration && this.stimuliDuration == stimuliDuration
      ensures this.pauseBeepStimuli == pauseBeepStimuli && this.pauseStart == pauseStart && this.pauseEnd == pauseEnd
      ensures stimuliVolumes == ParseVolumes(rawVolumes, toFloat)
      ensures stimuliFrequencies == ParseFrequencies(rawFrequencies, toFloat)
      ensures staircaseTopFrequency == topFrequency && staircaseBottomFrequency == bottomFrequency
      ensures staircaseMaxStep == maxStep && staircaseMinStep == minStep
      ensures staircaseMode == (if testMode == StaircaseMode then Some(TopToBottom) else None)
      ensures currentStep == maxStep
      ensures testDuration == pauseBeepStimuli + pauseEnd + stimuliDuration + beepDuration
      ensures testMode == RandomMode ==>
                volumes == GridVolumes(stimuliVolumes, stimuliFrequencies) &&
                frequencies == GridFrequencies(stimuliVolumes, stimuliFrequencies)
      ensures testMode != RandomMode ==> volumes == [] && frequencies == []
    {
      this.roundsMax := roundsMax;
      this.roundsMin := roundsMin;
      this.testMode := testMode;
      if testMode == StaircaseMode {
        staircaseMode := Some(TopToBottom);
      } else {
        staircaseMode := None;
      }
      this.beepDuration := beepDuration;
      this.stimuliDuration := stimuliDuration;
      var vs := ParseVolumes(rawVolumes, toFloat);
      stimuliVolumes := vs;
      var fs := ParseFrequencies(rawFrequencies, toFloat);
      stimuliFrequencies := fs;
      staircaseTopFrequency := topFrequency;
      staircaseBottomFrequency := bottomFrequency;
      staircaseMaxStep := maxStep;
      currentStep := maxStep;
      staircaseMinStep := minStep;
      this.pauseBeepStimuli := pauseBeepStimuli;
      this.pauseStart := pauseStart;
      this.pauseEnd := pauseEnd;
      testDuration := pauseBeepStimuli + pauseEnd + stimuliDuration + beepDuration;
      if testMode == RandomMode {
        assert |vs| * |fs| >= 1;
        volumes := GridVolumes(vs, fs);
        frequencies := GridFrequencies(vs, fs);
      } else {
        volumes := [];
        frequencies := [];
      }
    }
  }
}
