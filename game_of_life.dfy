/**
 * Conway's Game of Life on a WebGL canvas. The board is a flat array of
 * 4 * width * height numbers, one RGBA texel per cell, of which only the
 * red entry 4 * cell is ever written: 255 for a live cell, 0 for a dead
 * one. Cell (x, y) has number y * width + x, with y counted from the
 * bottom row. A generation is computed on the GPU by a 3 x 3 kernel with
 * weight 9 in the centre and 1 elsewhere, rendered into one of two
 * framebuffers chosen by the parity of the generation counter.
 *
 * Times and random draws are parameters.
 */
module GameOfLife {

  const PixelsPerCell: real := 8.0
  /** The time between generations while running. */
  const Threshold: real := 100.0
  const Alive: int := 255

  // ------------------------------------------------------------ the rule

  const Kernel: seq<int> := [1, 1, 1, 1, 9, 1, 1, 1, 1]

  /** A 3 x 3 neighbourhood of cells, row by row, each 0 (dead) or 1 (alive). */
  predicate IsNeighbourhood(cells: seq<int>)
  {
    |cells| == 9 && forall k :: 0 <= k < 9 ==> cells[k] == 0 || cells[k] == 1
  }

  /** The kernel-weighted sum the shader computes. */
  function KernelSum(cells: seq<int>): int
    requires |cells| == 9
  {
    Kernel[0] * cells[0] + Kernel[1] * cells[1] + Kernel[2] * cells[2]
    + Kernel[3] * cells[3] + Kernel[4] * cells[4] + Kernel[5] * cells[5]
    + Kernel[6] * cells[6] + Kernel[7] * cells[7] + Kernel[8] * cells[8]
  }

  /** The live neighbours of the centre cell. */
  function Neighbours(cells: seq<int>): int
    requires |cells| == 9
  {
    cells[0] + cells[1] + cells[2] + cells[3] + cells[5] + cells[6] + cells[7] + cells[8]
  }

  /** The shader's test: the cell is alive in the next generation. */
  predicate NextAlive(sum: int)
  {
    sum == 3 || sum == 11 || sum == 12
  }

  /**
   * The weighted sum is 9 for a live centre plus the number of live
   * neighbours, and the shader's test is exactly Conway's rule: a dead cell
   * with three live neighbours is born, a live cell with two or three
   * survives, and every other cell is dead.
   */
  lemma KernelIsConwayRule(cells: seq<int>)
    requires IsNeighbourhood(cells)
    ensures KernelSum(cells) == 9 * cells[4] + Neighbours(cells)
    ensures 0 <= Neighbours(cells) <= 8
    ensures NextAlive(KernelSum(cells))
            <==> (cells[4] == 0 && Neighbours(cells) == 3)
                 || (cells[4] == 1 && (Neighbours(cells) == 2 || Neighbours(cells) == 3))
  {
    var n := Neighbours(cells);
    assert KernelSum(cells) == 9 * cells[4] + n by {
      assert Kernel[4] == 9;
      assert Kernel[0] == Kernel[1] == Kernel[2] == Kernel[3] == 1;
      assert Kernel[5] == Kernel[6] == Kernel[7] == Kernel[8] == 1;
    }
    assert 0 <= n <= 8 by {
      assert 0 <= cells[0] <= 1 && 0 <= cells[1] <= 1 && 0 <= cells[2] <= 1;
      assert 0 <= cells[3] <= 1 && 0 <= cells[5] <= 1 && 0 <= cells[6] <= 1;
      assert 0 <= cells[7] <= 1 && 0 <= cells[8] <= 1;
    }
    assert cells[4] == 0 || cells[4] == 1;
  }

  // ---------------------------------------------------------- board model

  /**
   * `set_board(index, value)` on the board contents: the red entry of the
   * cell is replaced. A cell number outside the board writes nothing that
   * the board shows.
   */
  function SetCell(b: seq<int>, index: int, value: int): (r: seq<int>)
    ensures |r| == |b|
    ensures forall k :: 0 <= k < |b| ==> r[k] == if k == 4 * index then value else b[k]
  {
    if 0 <= index && 4 * index < |b| then b[4 * index := value] else b
  }

  /** Every entry of the board is 0 or 255. */
  predicate TwoValued(b: seq<int>)
  {
    forall k :: 0 <= k < |b| ==> b[k] == 0 || b[k] == Alive
  }

  /** A board of n entries, all 0. */
  function DeadBoard(n: nat): (b: seq<int>)
    ensures |b| == n && TwoValued(b)
  {
    seq(n, _ => 0)
  }

  /** The five cells of the glider placed at (x, y). */
  predicate InGlider(cell: int, x: int, y: int, width: int)
  {
    cell == y * width + x
    || cell == (y - 1) * width + x + 1
    || cell == (y - 1) * width + x + 2
    || cell == (y - 2) * width + x
    || cell == (y - 2) * width + x + 1
  }

  function GliderBoard(b: seq<int>, x: int, y: int, width: int): seq<int>
  {
    var b1 := SetCell(b, y * width + x, Alive);
    var b2 := SetCell(b1, (y - 1) * width + x + 1, Alive);
    var b3 := SetCell(b2, (y - 1) * width + x + 2, Alive);
    var b4 := SetCell(b3, (y - 2) * width + x, Alive);
    SetCell(b4, (y - 2) * width + x + 1, Alive)
  }

  /** `glider(x, y)` makes exactly its five cells alive and leaves every other entry as it was. */
  lemma GliderCells(b: seq<int>, x: int, y: int, width: int)
    ensures |GliderBoard(b, x, y, width)| == |b|
    ensures forall k :: 0 <= k < |b| ==>
              GliderBoard(b, x, y, width)[k] == if k % 4 == 0 && InGlider(k / 4, x, y, width) then Alive else b[k]
  {
    var c1, c2, c3 := y * width + x, (y - 1) * width + x + 1, (y - 1) * width + x + 2;
    var c4, c5 := (y - 2) * width + x, (y - 2) * width + x + 1;
    forall k | 0 <= k < |b|
      ensures GliderBoard(b, x, y, width)[k] == if k % 4 == 0 && InGlider(k / 4, x, y, width) then Alive else b[k]
    {
      SetFiveCells(b, c1, c2, c3, c4, c5, k);
    }
  }

  /** Five `set_board` writes of Alive in a row, seen at entry k. */
  lemma SetFiveCells(b: seq<int>, c1: int, c2: int, c3: int, c4: int, c5: int, k: int)
    requires 0 <= k < |b|
    ensures var r := SetCell(SetCell(SetCell(SetCell(SetCell(b, c1, Alive), c2, Alive), c3, Alive), c4, Alive), c5, Alive);
            r[k] == if k % 4 == 0 && (k / 4 == c1 || k / 4 == c2 || k / 4 == c3 || k / 4 == c4 || k / 4 == c5)
                    then Alive else b[k]
  {
    assert k % 4 == 0 <==> k == 4 * (k / 4);
  }

  /** A click's effect on the board: the red entry of the cell flips between 0 and 255. */
  function Toggled(b: seq<int>, index: int): (r: seq<int>)
    ensures |r| == |b|
    ensures 0 <= index && 4 * index < |b| ==> r[4 * index] == if b[4 * index] == Alive then 0 else Alive
    ensures forall k :: 0 <= k < |b| && k != 4 * index ==> r[k] == b[k]
  {
    if 0 <= index && 4 * index < |b| then b[4 * index := if b[4 * index] == Alive then 0 else Alive] else b
  }

  /** Toggling keeps the board two-valued, and toggling the same cell twice restores it. */
  lemma ToggleTwice(b: seq<int>, index: int)
    requires TwoValued(b)
    ensures TwoValued(Toggled(b, index))
    ensures Toggled(Toggled(b, index), index) == b
  {
  }

  /** The value a random draw gives a cell. */
  function DrawValue(draw: real, threshold: real): int
  {
    if draw < threshold then Alive else 0
  }

  /** The board after the first n cells have been set from their draws. */
  function RandomizedPrefix(b: seq<int>, draws: seq<real>, threshold: real, n: nat): seq<int>
    requires n <= |draws|
  {
    if n == 0 then b else SetCell(RandomizedPrefix(b, draws, threshold, n - 1), n - 1, DrawValue(draws[n - 1], threshold))
  }

  /**
   * After n cells, cell i < n holds 255 exactly when its draw is below the
   * threshold and 0 otherwise; every other entry is unchanged.
   */
  lemma {:induction false} RandomizedCells(b: seq<int>, draws: seq<real>, threshold: real, n: nat)
    requires n <= |draws| && 4 * n <= |b|
    ensures |RandomizedPrefix(b, draws, threshold, n)| == |b|
    ensures forall k :: 0 <= k < |b| ==>
              RandomizedPrefix(b, draws, threshold, n)[k]
              == if k % 4 == 0 && k / 4 < n then DrawValue(draws[k / 4], threshold) else b[k]
  {
    if n > 0 {
      RandomizedCells(b, draws, threshold, n - 1);
      var prev := RandomizedPrefix(b, draws, threshold, n - 1);
      var v := DrawValue(draws[n - 1], threshold);
      assert RandomizedPrefix(b, draws, threshold, n) == SetCell(prev, n - 1, v);
      forall k | 0 <= k < |b|
        ensures RandomizedPrefix(b, draws, threshold, n)[k]
                == if k % 4 == 0 && k / 4 < n then DrawValue(draws[k / 4], threshold) else b[k]
      {
        if k == 4 * (n - 1) {
          assert k % 4 == 0 && k / 4 == n - 1;
        } else {
          assert SetCell(prev, n - 1, v)[k] == prev[k];
          assert !(k % 4 == 0 && k / 4 == n - 1);
        }
      }
    }
  }

  /** The cell under a click at client position (clientX, clientY); rows count from the bottom. */
  function ClickedCell(clientX: real, clientY: real, rectLeft: real, rectTop: real,
                       rectHeight: real, width: int): int
  {
    var mouseX := clientX - rectLeft;
    var mouseY := rectHeight - clientY + rectTop - 1.0;
    (mouseY / PixelsPerCell).Floor * width + (mouseX / PixelsPerCell).Floor
  }

  /** Entry n of the index list: cell n / 6 contributes corners 0, 1, 2, 0, 2, 3. */
  function CornerOffset(k: nat): nat
    requires k < 6
  {
    [0, 1, 2, 0, 2, 3][k]
  }

  /** The index list of the first `cells` quads. */
  function QuadIndices(cells: nat): seq<int>
  {
    if cells == 0 then []
    else var i := cells - 1;
      QuadIndices(i) + [4 * i + 0, 4 * i + 1, 4 * i + 2, 4 * i + 0, 4 * i + 2, 4 * i + 3]
  }

  /**
   * The list has six entries per cell, entry 6 i + k is 4 i plus the k-th
   * corner offset, and so every entry names one of the 4 * cells vertices.
   */
  lemma {:induction false} QuadIndicesLayout(cells: nat, i: nat, k: nat)
    requires i < cells && k < 6
    ensures |QuadIndices(cells)| == 6 * cells
    ensures QuadIndices(cells)[6 * i + k] == 4 * i + CornerOffset(k)
    ensures 0 <= QuadIndices(cells)[6 * i + k] < 4 * cells
  {
    QuadIndicesLength(cells - 1);
    if i < cells - 1 {
      QuadIndicesLayout(cells - 1, i, k);
    }
  }

  lemma {:induction false} QuadIndicesLength(cells: nat)
    ensures |QuadIndices(cells)| == 6 * cells
  {
    if cells > 0 {
      QuadIndicesLength(cells - 1);
    }
  }

  /** The loop that fills `quad_indices`, six entries per cell. */
  method BuildQuadIndices(numCells: nat) returns (indices: seq<int>)
    ensures indices == QuadIndices(numCells)
  {
    indices := [];
    for i := 0 to numCells
      invariant indices == QuadIndices(i)
    {
      indices := indices + [4 * i + 0, 4 * i + 1, 4 * i + 2, 4 * i + 0, 4 * i + 2, 4 * i + 3];
    }
  }

  /** The page's board texture data: n entries, all 0. */
  method NewDeadBoard(n: nat) returns (b: array<int>)
    ensures fresh(b) && b[..] == DeadBoard(n)
  {
    b := new int[n](_ => 0);
    assert b[..] == DeadBoard(n);
  }

  // ------------------------------------------------------------ the game

  class Game {
    const width: nat
    const height: nat
    const board: array<int>
    var running: bool
    var elapsedTime: real
    var prevTime: real
    var iteration: nat
    var randomizationThreshold: real
    /**
     * The framebuffer bound for rendering. A generation step binds
     * `framebuffers[iteration % 2]`, whose colour attachment is
     * `textures[iteration % 2]`.
     */
    var targetFramebuffer: nat
    /** The texture bound for sampling: the next generation reads it. */
    var sampledTexture: nat

    predicate Valid()
      reads this, board
    {
      board.Length == 4 * (width * height) && TwoValued(board[..])
    }

    /**
     * The ping-pong between the two textures is in order: the next
     * generation, rendered into the texture attached to
     * `framebuffers[iteration % 2]`, samples the other texture.
     */
    predicate PingPong()
      reads this
    {
      sampledTexture != iteration % 2
    }

    /**
     * The page's set-up: an all-dead board of 4 * width * height entries,
     * threshold 0.5, and then `init_board`.
     */
    constructor (width: nat, height: nat, now: real)
      ensures Valid() && fresh(board)
      ensures this.width == width && this.height == height
      ensures board[..] == GliderBoard(DeadBoard(board.Length), 5, height - 5, width)
      ensures !running && elapsedTime == 0.0 && prevTime == now && iteration == 1
      ensures randomizationThreshold == 0.5
      ensures targetFramebuffer == 0 && sampledTexture == 1 && !PingPong()
    {
      this.width := width;
      this.height := height;
      var size := 4 * (width * height);
      var cells := NewDeadBoard(size);
      board := cells;
      running := false;
      elapsedTime := 0.0;
      prevTime := now;
      iteration := 1;
      randomizationThreshold := 0.5;
      targetFramebuffer := 0;
      sampledTexture := 1;
      new;
      assert board[..] == DeadBoard(board.Length);
      assert Valid();
      InitBoardAsWritten();
    }

    /** `set_board(index, value)`. */
    method SetBoard(index: int, value: int)
      modifies board
      ensures board[..] == SetCell(old(board[..]), index, value)
    {
      if 0 <= index && 4 * index < board.Length {
        board[4 * index] := value;
      }
    }

    /** `glider(x, y)`: five live cells. */
    method Glider(x: int, y: int)
      requires Valid()
      modifies board
      ensures Valid()
      ensures board[..] == GliderBoard(old(board[..]), x, y, width)
    {
      SetBoard(y * width + x + 0, Alive);
      SetBoard((y - 1) * width + x + 1, Alive);
      SetBoard((y - 1) * width + x + 2, Alive);
      SetBoard((y - 2) * width + x + 0, Alive);
      SetBoard((y - 2) * width + x + 1, Alive);
    }

    /** `pause`: stopped, with the elapsed time cleared and the clock restarted. */
    method Pause(now: real)
      modifies this
      ensures !running && elapsedTime == 0.0 && prevTime == now
      ensures iteration == old(iteration) && randomizationThreshold == old(randomizationThreshold)
      ensures targetFramebuffer == old(targetFramebuffer) && sampledTexture == old(sampledTexture)
    {
      elapsedTime := 0.0;
      prevTime := now;
      running := false;
    }

    /** The pause button: pause when running, start otherwise. */
    method PauseButton(now: real)
      modifies this
      ensures running == !old(running)
      ensures old(running) ==> elapsedTime == 0.0 && prevTime == now
      ensures !old(running) ==> elapsedTime == old(elapsedTime) && prevTime == old(prevTime)
      ensures iteration == old(iteration) && randomizationThreshold == old(randomizationThreshold)
      ensures targetFramebuffer == old(targetFramebuffer) && sampledTexture == old(sampledTexture)
    {
      if running {
        Pause(now);
      } else {
        running := true;
      }
    }

    /**
     * `init_board` as written: it stops the game, sets the generation
     * counter to 1, places the glider and binds framebuffer 0 and texture 1.
     * The elapsed time is assigned under a misspelt name, so it keeps its
     * value. With the counter at 1 the first generation is rendered into
     * `framebuffers[1]`, whose attachment is texture 1, the very texture it
     * samples.
     */
    method InitBoardAsWritten()
      requires Valid()
      modifies this, board
      ensures Valid()
      ensures !running && iteration == 1 && elapsedTime == old(elapsedTime)
      ensures targetFramebuffer == 0 && sampledTexture == 1
      ensures !PingPong()
      ensures board[..] == GliderBoard(old(board[..]), 5, height - 5, width)
      ensures prevTime == old(prevTime) && randomizationThreshold == old(randomizationThreshold)
    {
      running := false;
      iteration := 1;
      Glider(5, height - 5);
      targetFramebuffer := 0;
      sampledTexture := 1;
    }

    /**
     * `init_board` as intended: the elapsed time is cleared, as the rest of
     * the game does on a stop, and the first generation is rendered into
     * `framebuffers[0]` while texture 1 is sampled.
     */
    method InitBoard()
      requires Valid()
      modifies this, board
      ensures Valid()
      ensures !running && iteration == 0 && elapsedTime == 0.0
      ensures targetFramebuffer == 0 && sampledTexture == 1
      ensures PingPong()
      ensures board[..] == GliderBoard(old(board[..]), 5, height - 5, width)
      ensures prevTime == old(prevTime) && randomizationThreshold == old(randomizationThreshold)
    {
      running := false;
      elapsedTime := 0.0;
      iteration := 0;
      Glider(5, height - 5);
      targetFramebuffer := 0;
      sampledTexture := 1;
    }

    /**
     * The reset button: every entry cleared, then `init_board` as written,
     * so the elapsed time keeps its value.
     */
    method Reset()
      requires Valid()
      modifies this, board
      ensures Valid()
      ensures board[..] == GliderBoard(DeadBoard(board.Length), 5, height - 5, width)
      ensures !running && iteration == 1 && elapsedTime == old(elapsedTime)
      ensures targetFramebuffer == 0 && sampledTexture == 1 && !PingPong()
      ensures prevTime == old(prevTime) && randomizationThreshold == old(randomizationThreshold)
    {
      forall k | 0 <= k < board.Length {
        board[k] := 0;
      }
      assert board[..] == DeadBoard(board.Length);
      InitBoardAsWritten();
    }

    /**
     * The randomize button with one draw per cell: cell i becomes alive
     * exactly when its draw is below the threshold, and the game is paused.
     */
    method Randomize(draws: seq<real>, now: real)
      requires Valid() && |draws| == width * height
      modifies this, board
      ensures Valid()
      ensures board[..] == RandomizedPrefix(old(board[..]), draws, old(randomizationThreshold), width * height)
      ensures !running && elapsedTime == 0.0 && prevTime == now
      ensures iteration == old(iteration) && randomizationThreshold == old(randomizationThreshold)
      ensures targetFramebuffer == old(targetFramebuffer) && sampledTexture == old(sampledTexture)
    {
      running := false;
      for i := 0 to width * height
        invariant board[..] == RandomizedPrefix(old(board[..]), draws, randomizationThreshold, i)
        invariant randomizationThreshold == old(randomizationThreshold) && iteration == old(iteration)
        invariant targetFramebuffer == old(targetFramebuffer) && sampledTexture == old(sampledTexture)
      {
        if draws[i] < randomizationThreshold {
          SetBoard(i, Alive);
        } else {
          SetBoard(i, 0);
        }
      }
      RandomizedCells(old(board[..]), draws, randomizationThreshold, width * height);
      Pause(now);
    }

    /** Enter in the probability box: an empty entry gives 0.5. */
    method SetThreshold(entered: real, isEmpty: bool)
      modifies this
      ensures randomizationThreshold == if isEmpty then 0.5 else entered
      ensures running == old(running) && iteration == old(iteration)
      ensures elapsedTime == old(elapsedTime) && prevTime == old(prevTime)
      ensures targetFramebuffer == old(targetFramebuffer) && sampledTexture == old(sampledTexture)
    {
      randomizationThreshold := if isEmpty then 0.5 else entered;
    }

    /** A click on the canvas: while stopped, the clicked cell flips; while running nothing happens. */
    method Click(clientX: real, clientY: real, rectLeft: real, rectTop: real, rectHeight: real)
      requires Valid()
      modifies board
      ensures Valid()
      ensures old(running) ==> board[..] == old(board[..])
      ensures !old(running) ==>
                board[..] == Toggled(old(board[..]), ClickedCell(clientX, clientY, rectLeft, rectTop, rectHeight, width))
    {
      if !running {
        var index := ClickedCell(clientX, clientY, rectLeft, rectTop, rectHeight, width);
        ToggleTwice(board[..], index);
        if 0 <= index && 4 * index < board.Length {
          SetBoard(index, if board[4 * index] == Alive then 0 else Alive);
        }
      }
    }

    /**
     * One animation frame at time `now`. While running the elapsed time
     * grows by the frame time; once it exceeds 100 it drops by 100, the
     * next generation is rendered into framebuffer `iteration % 2`, that
     * framebuffer's texture is sampled next, and the counter advances. At
     * most one generation is computed per frame.
     */
    method Render(now: real) returns (stepped: bool)
      modifies this
      ensures prevTime == now
      ensures stepped <==> old(running) && old(elapsedTime) + (now - old(prevTime)) > Threshold
      ensures !old(running) ==> elapsedTime == old(elapsedTime)
      ensures old(running) && !stepped ==> elapsedTime == old(elapsedTime) + (now - old(prevTime))
      ensures stepped ==> elapsedTime == old(elapsedTime) + (now - old(prevTime)) - Threshold
      ensures stepped ==> iteration == old(iteration) + 1
                          && targetFramebuffer == old(iteration) % 2 && sampledTexture == old(iteration) % 2
      ensures !stepped ==> iteration == old(iteration) && targetFramebuffer == old(targetFramebuffer)
                           && sampledTexture == old(sampledTexture)
      ensures stepped ==> (old(sampledTexture) != targetFramebuffer <==> old(PingPong()))
      ensures stepped ==> PingPong()
      ensures !stepped ==> PingPong() == old(PingPong())
      ensures running == old(running) && randomizationThreshold == old(randomizationThreshold)
    {
      var dt := now - prevTime;
      prevTime := now;
      stepped := false;
      if running {
        elapsedTime := elapsedTime + dt;
        if elapsedTime > Threshold {
          elapsedTime := elapsedTime - Threshold;
          targetFramebuffer := iteration % 2;
          sampledTexture := iteration % 2;
          iteration := iteration + 1;
          stepped := true;
        }
      }
    }
  }

  /**
   * Reset, Run, then one frame: a frame that computes a generation renders
   * into `framebuffers[1]` while `textures[1]`, the texture attached to it,
   * is the one sampled.
   */
  method RunAfterReset(g: Game, runTime: real, frameTime: real) returns (stepped: bool, ghost sampled: nat)
    requires g.Valid()
    modifies g, g.board
    ensures g.Valid() && g.running
    ensures stepped <==> old(g.elapsedTime) + (frameTime - old(g.prevTime)) > Threshold
    ensures stepped ==> g.targetFramebuffer == 1 && sampled == 1
  {
    g.Reset();
    g.PauseButton(runTime);
    sampled := g.sampledTexture;
    stepped := g.Render(frameTime);
  }
}
