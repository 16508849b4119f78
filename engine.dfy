/**
 * The render engine's per-frame command buffer and its projection matrix.
 *
 * Draw requests become command objects appended to a pending list; `Render`
 * runs every pending command in submission order, marks each one unused and
 * empties the list. What a command draws is outside this model: running it is
 * recorded as an event in `drawLog`, so the order and number of executions can
 * be stated.
 */
module Engine {
  import opened Geometry

  /** The parameters a text command was given before it was submitted. */
  datatype TextParams =
    | NoParams
    | AtPoint(text: string, left: real, bottom: real, paint: TextPaint)
    | InRect(text: string, rect: Rect, paint: TextPaint)

  /**
   * A draw command; `used` marks it as taken from (not yet returned to) the command pool.
   * This one class stands for both the command base class and the text command, the only
   * kind created here; `NoParams` stands for a command that carries no text.
   */
  class RenderCommand {
    const engine: RenderEngine
    var used: bool
    var params: TextParams

    constructor (engine: RenderEngine)
      ensures this.engine == engine && params == NoParams
    {
      this.engine := engine;
      used := false;
      params := NoParams;
    }

    /** Records a text anchored at its left edge and baseline. */
    method PutParams(text: string, left: real, bottom: real, paint: TextPaint)
      modifies this`params
      ensures params == AtPoint(text, left, bottom, paint)
    {
      params := AtPoint(text, left, bottom, paint);
    }

    /** Records a text laid out inside a bounding rectangle. */
    method PutTextParamsByRectLimit(text: string, rect: Rect, paint: TextPaint)
      modifies this`params
      ensures params == InRect(text, rect, paint)
    {
      params := InRect(text, rect, paint);
    }
  }

  /** A homogeneous 2D coordinate. */
  datatype Vec3 = Vec3(x: real, y: real, w: real)

  /** A 3x3 matrix given as its three columns, as glm stores it. */
  predicate IsMat3(m: seq<seq<real>>)
  {
    |m| == 3 && |m[0]| == 3 && |m[1]| == 3 && |m[2]| == 3
  }

  /** The column-major matrix `m` applied to the column vector `v`. */
  function Transform(m: seq<seq<real>>, v: Vec3): Vec3
    requires IsMat3(m)
  {
    Vec3(m[0][0] * v.x + m[1][0] * v.y + m[2][0] * v.w,
         m[0][1] * v.x + m[1][1] * v.y + m[2][1] * v.w,
         m[0][2] * v.x + m[1][2] * v.y + m[2][2] * v.w)
  }

  /** The normalization matrix for a view of `w` by `h` pixels, column by column. */
  function NormalMatrix(w: real, h: real): (m: seq<seq<real>>)
    requires w != 0.0 && h != 0.0
    ensures IsMat3(m)
  {
    [[2.0 / w, 0.0, 0.0], [0.0, 2.0 / h, 0.0], [-1.0, -1.0, 1.0]]
  }

  /** The matrix maps a pixel (px, py) to normalized device coordinates, origin at the bottom left. */
  lemma PixelToNdc(w: real, h: real, px: real, py: real)
    requires w != 0.0 && h != 0.0
    ensures Transform(NormalMatrix(w, h), Vec3(px, py, 1.0)) == Vec3(2.0 * px / w - 1.0, 2.0 * py / h - 1.0, 1.0)
  {
  }

  /** The view's bottom-left corner, centre and top-right corner land on (-1, -1), (0, 0) and (1, 1). */
  lemma ViewCornersToNdc(w: real, h: real)
    requires w != 0.0 && h != 0.0
    ensures Transform(NormalMatrix(w, h), Vec3(0.0, 0.0, 1.0)) == Vec3(-1.0, -1.0, 1.0)
    ensures Transform(NormalMatrix(w, h), Vec3(w / 2.0, h / 2.0, 1.0)) == Vec3(0.0, 0.0, 1.0)
    ensures Transform(NormalMatrix(w, h), Vec3(w, h, 1.0)) == Vec3(1.0, 1.0, 1.0)
  {
  }

  class RenderEngine {
    /** The commands submitted since the last `Render`, in submission order. */
    var renderCommandList: seq<RenderCommand>
    /** Every command run so far, in the order they ran: the observable effect of drawing. */
    var drawLog: seq<RenderCommand>
    /** The normalization matrix; `normalMatrix[i, j]` is column `i`, row `j`. */
    const normalMatrix: array2<real>

    ghost predicate Valid()
      reads this
    {
      normalMatrix.Length0 == 3 && normalMatrix.Length1 == 3
    }

    constructor ()
      ensures Valid() && fresh(normalMatrix)
      ensures renderCommandList == [] && drawLog == []
    {
      renderCommandList := [];
      drawLog := [];
      normalMatrix := new real[3, 3];
    }

    /** Runs every pending command once, in order, marks each unused, then empties the list. */
    method Render()
      modifies this`renderCommandList, this`drawLog, renderCommandList
      ensures renderCommandList == []
      ensures drawLog == old(drawLog) + old(renderCommandList)
      ensures forall c :: c in old(renderCommandList) ==> !c.used && c.params == old(c.params)
    {
      var i := 0;
      while i < |renderCommandList|
        invariant 0 <= i <= |renderCommandList|
        invariant renderCommandList == old(renderCommandList)
        invariant drawLog == old(drawLog) + renderCommandList[..i]
        invariant forall k :: 0 <= k < i ==> !renderCommandList[k].used
        invariant forall c :: c in renderCommandList ==> c.params == old(c.params)
      {
        var cmd := renderCommandList[i];
        RunCommands(cmd);
        cmd.used := false;
        i := i + 1;
      }
      assert renderCommandList[..i] == renderCommandList;
      ClearRenderCommands();
    }

    /** The draw effect of one command, recorded as an event. */
    method RunCommands(cmd: RenderCommand)
      modifies this`drawLog
      ensures drawLog == old(drawLog) + [cmd]
    {
      drawLog := drawLog + [cmd];
    }

    method ClearRenderCommands()
      modifies this`renderCommandList
      ensures renderCommandList == []
    {
      renderCommandList := [];
    }

    /** Recomputes the normalization matrix for a view of `w` by `h` pixels. */
    method ResetNormalMat(w: real, h: real)
      requires Valid() && w != 0.0 && h != 0.0
      modifies normalMatrix
      ensures normalMatrix[0, 0] == 2.0 / w && normalMatrix[1, 1] == 2.0 / h
      ensures normalMatrix[2, 0] == -1.0 && normalMatrix[2, 1] == -1.0 && normalMatrix[2, 2] == 1.0
      ensures normalMatrix[0, 1] == 0.0 && normalMatrix[0, 2] == 0.0
      ensures normalMatrix[1, 0] == 0.0 && normalMatrix[1, 2] == 0.0
      ensures forall i, j :: 0 <= i < 3 && 0 <= j < 3 ==> normalMatrix[i, j] == NormalMatrix(w, h)[i][j]
    {
      normalMatrix[0, 0] := 2.0 / w;
      normalMatrix[0, 1] := 0.0;
      normalMatrix[0, 2] := 0.0;

      normalMatrix[1, 0] := 0.0;
      normalMatrix[1, 1] := 2.0 / h;
      normalMatrix[1, 2] := 0.0;

      normalMatrix[2, 0] := -1.0;
      normalMatrix[2, 1] := -1.0;
      normalMatrix[2, 2] := 1.0;
    }

    /** Appends one command at the end of the pending list. */
    method SubmitRenderCommand(cmd: RenderCommand)
      modifies this`renderCommandList
      ensures renderCommandList == old(renderCommandList) + [cmd]
    {
      renderCommandList := renderCommandList + [cmd];
    }

    /** Submits a text anchored at (left, bottom); an empty text is submitted too. */
    method RenderTextAt(text: string, left: real, bottom: real, paint: TextPaint)
      modifies this`renderCommandList
      ensures |renderCommandList| == |old(renderCommandList)| + 1
      ensures renderCommandList[..|old(renderCommandList)|] == old(renderCommandList)
      ensures var cmd := renderCommandList[|renderCommandList| - 1];
              fresh(cmd) && cmd.used && cmd.engine == this && cmd.params == AtPoint(text, left, bottom, paint)
    {
      var cmd := FetchTextRenderCommand();
      cmd.PutParams(text, left, bottom, paint);
      SubmitRenderCommand(cmd);
    }

    /** Submits a text laid out in `showRect`; an empty text submits nothing. */
    method RenderTextInRect(text: string, showRect: Rect, paint: TextPaint)
      modifies this`renderCommandList
      ensures text == [] ==> renderCommandList == old(renderCommandList)
      ensures text != [] ==>
                && |renderCommandList| == |old(renderCommandList)| + 1
                && renderCommandList[..|old(renderCommandList)|] == old(renderCommandList)
                && var cmd := renderCommandList[|renderCommandList| - 1];
                   fresh(cmd) && cmd.used && cmd.engine == this && cmd.params == InRect(text, showRect, paint)
    {
      if text == [] {
        return;
      }
      var cmd := FetchTextRenderCommand();
      cmd.PutTextParamsByRectLimit(text, showRect, paint);
      SubmitRenderCommand(cmd);
    }

    /** A new text command bound to this engine and marked used; the engine itself is not changed. */
    method FetchTextRenderCommand() returns (cmd: RenderCommand)
      ensures fresh(cmd) && cmd.used && cmd.engine == this && cmd.params == NoParams
    {
      cmd := new RenderCommand(this);
      cmd.used := true;
    }
  }
}
