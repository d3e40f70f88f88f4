/** The gizmo helper's default arrow mesh: a cylinder shaft of `n + 1` vertex
    pairs (the seam vertex repeated), a cone tip, and a ring of `n` cone-base
    vertices, stitched by `n` shaft quads and `n` cone triangles; and the
    lazily built mesh shared by both `DrawMeshArrow` overloads.

    The source fixes `n` at `Segments`; the model takes any `n`. A vertex keeps
    its radius and its step around the axis instead of the cosine and sine
    coordinates: the vertex at step `i` of a ring of radius `r` lies at
    (cos(2 pi i / n) r, y, sin(2 pi i / n) r). The tip has radius zero. */
module ArrowMesh {

  /** A mesh vertex: distance from the up axis, angular step, and height. */
  datatype Vertex = Vertex(radius: real, step: int, y: real)

  datatype Mesh = Mesh(vertices: seq<Vertex>, triangles: seq<int>)

  datatype Option<T> = None | Some(value: T)

  const ShaftHeight: real := 0.7
  const ShaftRadius: real := 0.1
  const ConeHeight: real := 0.3
  const ConeRadius: real := 0.2
  const Segments: nat := 18

  // ------------------------------------------------------- reference layout

  /** The length of the vertex array: two per shaft step, the tip, the ring. */
  function VertexCount(n: nat): nat
  {
    (n + 1) * 2 + n + 1
  }

  /** The length of the triangle array: six indices per shaft quad and three
      per cone triangle. */
  function IndexCount(n: nat): nat
  {
    n * 6 + n * 3
  }

  /** The position of the tip, which is also the first cone index. */
  function TipIndex(n: nat): nat
  {
    (n + 1) * 2
  }

  /** Vertex `k` of the mesh, by position: even shaft vertices on the base
      circle, odd ones on the top circle, then the tip, then the cone ring. */
  function ExpectedVertex(n: nat, k: nat): Vertex
    requires k < VertexCount(n)
  {
    if k < TipIndex(n) then
      Vertex(ShaftRadius, k / 2, if k % 2 == 0 then 0.0 else ShaftHeight)
    else if k == TipIndex(n) then
      Vertex(0.0, 0, ShaftHeight + ConeHeight)
    else
      Vertex(ConeRadius, k - TipIndex(n) - 1, ShaftHeight)
  }

  /** Entry `t` of the triangle array, by position: shaft quad `t / 6` is the
      two triangles (b, b+1, b+2) and (b+1, b+3, b+2) over vertex pair
      b = 2 (t / 6), and cone triangle `i` joins the tip to ring vertices `i`
      and `i + 1`, the last wrapping to the first. The shaft's modulus is
      kept as written. */
  function ExpectedIndex(n: nat, t: nat): int
    requires t < IndexCount(n)
  {
    if t < n * 6 then
      var b := (t / 6) * 2;
      var wrap := (n + 1) * 2;
      match t % 6
      case 0 => b
      case 1 => b + 1
      case 2 => (b + 2) % wrap
      case 3 => b + 1
      case 4 => (b + 3) % wrap
      case _ => (b + 2) % wrap
    else
      var i := (t - n * 6) / 3;
      var c := TipIndex(n);
      match (t - n * 6) % 3
      case 0 => c
      case 1 => c + i + 1
      case _ => c + (i + 1) % n + 1
  }

  function ExpectedMesh(n: nat): (m: Mesh)
    ensures |m.vertices| == VertexCount(n) && |m.triangles| == IndexCount(n)
  {
    Mesh(seq(VertexCount(n), k requires 0 <= k < VertexCount(n) => ExpectedVertex(n, k)),
         seq(IndexCount(n), t requires 0 <= t < IndexCount(n) => ExpectedIndex(n, t)))
  }

  // ---------------------------------------------------------- construction

  /** `CreateArrowMesh` with `n` segments: the vertex array and the triangle
      array, each filled by the source's loops. */
  method CreateArrowMesh(n: nat) returns (mesh: Mesh)
    ensures |mesh.vertices| == VertexCount(n) && |mesh.triangles| == IndexCount(n)
    ensures mesh == ExpectedMesh(n)
  {
    var vertices := BuildVertices(n);
    var triangles := BuildTriangles(n);
    mesh := Mesh(vertices, triangles);
  }

  /** The vertex loops of `CreateArrowMesh`: the shaft pairs, then the tip,
      then the cone ring, written at a running position. */
  method BuildVertices(n: nat) returns (vertices: seq<Vertex>)
    ensures vertices == ExpectedMesh(n).vertices
  {
    var a := new Vertex[VertexCount(n)];
    var vertIndex := 0;
    var i := 0;
    while i <= n
      invariant 0 <= i <= n + 1 && vertIndex == 2 * i
      invariant forall k :: 0 <= k < vertIndex ==> a[k] == ExpectedVertex(n, k)
    {
      a[vertIndex] := Vertex(ShaftRadius, i, 0.0);
      vertIndex := vertIndex + 1;
      a[vertIndex] := Vertex(ShaftRadius, i, ShaftHeight);
      vertIndex := vertIndex + 1;
      i := i + 1;
    }
    a[vertIndex] := Vertex(0.0, 0, ShaftHeight + ConeHeight);
    vertIndex := vertIndex + 1;
    i := 0;
    while i < n
      invariant 0 <= i <= n && vertIndex == TipIndex(n) + 1 + i
      invariant forall k :: 0 <= k < vertIndex ==> a[k] == ExpectedVertex(n, k)
    {
      a[vertIndex] := Vertex(ConeRadius, i, ShaftHeight);
      vertIndex := vertIndex + 1;
      i := i + 1;
    }
    assert vertIndex == a.Length;
    vertices := a[..];
    assert vertices == ExpectedMesh(n).vertices by {
      forall k | 0 <= k < VertexCount(n)
        ensures vertices[k] == ExpectedMesh(n).vertices[k]
      {
      }
    }
  }

  /** The triangle loops of `CreateArrowMesh`: six indices per shaft quad,
      then three per cone triangle, written at a running position. */
  method BuildTriangles(n: nat) returns (triangles: seq<int>)
    ensures triangles == ExpectedMesh(n).triangles
  {
    var a := new int[IndexCount(n)];
    var triIndex := FillShaft(a, n);
    triIndex := FillCone(a, n, triIndex);
    triangles := a[..];
    assert triangles == ExpectedMesh(n).triangles by {
      forall t | 0 <= t < IndexCount(n)
        ensures triangles[t] == ExpectedMesh(n).triangles[t]
      {
      }
    }
  }

  /** The shaft-quad loop of `CreateArrowMesh` fills the first `6 n` entries. */
  method FillShaft(a: array<int>, n: nat) returns (triIndex: nat)
    requires a.Length == IndexCount(n)
    modifies a
    ensures triIndex == n * 6
    ensures forall t :: 0 <= t < n * 6 ==> a[t] == ExpectedIndex(n, t)
  {
    triIndex := 0;
    var i := 0;
    while i < n
      invariant 0 <= i <= n && triIndex == 6 * i
      invariant forall t :: 0 <= t < triIndex ==> a[t] == ExpectedIndex(n, t)
    {
      WriteQuad(a, n, i);
      forall t | 0 <= t < triIndex + 6
        ensures a[t] == ExpectedIndex(n, t)
      {
        if t < triIndex {
        } else if t == triIndex {
        } else if t == triIndex + 1 {
        } else if t == triIndex + 2 {
        } else if t == triIndex + 3 {
        } else if t == triIndex + 4 {
        } else {
          assert t == triIndex + 5;
        }
      }
      triIndex := triIndex + 6;
      i := i + 1;
    }
  }

  /** One iteration of the shaft loop: the six entries of quad `i`, at
      position `6 i`. */
  method WriteQuad(a: array<int>, n: nat, i: nat)
    requires a.Length == IndexCount(n) && i < n
    modifies a
    ensures forall t :: 0 <= t < 6 * i ==> a[t] == old(a[t])
    ensures && a[6 * i] == ExpectedIndex(n, 6 * i)
            && a[6 * i + 1] == ExpectedIndex(n, 6 * i + 1)
            && a[6 * i + 2] == ExpectedIndex(n, 6 * i + 2)
            && a[6 * i + 3] == ExpectedIndex(n, 6 * i + 3)
            && a[6 * i + 4] == ExpectedIndex(n, 6 * i + 4)
            && a[6 * i + 5] == ExpectedIndex(n, 6 * i + 5)
  {
    var triIndex := 6 * i;
    var baseIndex := i * 2;
    var wrap := (n + 1) * 2;
    ShaftQuadEntries(n, i);
    a[triIndex] := baseIndex;
    a[triIndex + 1] := baseIndex + 1;
    a[triIndex + 2] := (baseIndex + 2) % wrap;
    a[triIndex + 3] := baseIndex + 1;
    a[triIndex + 4] := (baseIndex + 3) % wrap;
    a[triIndex + 5] := (baseIndex + 2) % wrap;
  }

  /** The cone-triangle loop of `CreateArrowMesh` fills the remaining `3 n`
      entries. */
  method FillCone(a: array<int>, n: nat, start: nat) returns (triIndex: nat)
    requires a.Length == IndexCount(n) && start == n * 6
    modifies a
    ensures triIndex == a.Length
    ensures forall t :: 0 <= t < n * 6 ==> a[t] == old(a[t])
    ensures forall t :: n * 6 <= t < IndexCount(n) ==> a[t] == ExpectedIndex(n, t)
  {
    var coneBaseIndex := TipIndex(n);
    triIndex := start;
    var i := 0;
    while i < n
      invariant 0 <= i <= n && triIndex == n * 6 + 3 * i
      invariant forall t :: 0 <= t < n * 6 ==> a[t] == old(a[t])
      invariant forall t :: n * 6 <= t < triIndex ==> a[t] == ExpectedIndex(n, t)
    {
      ConeTriangleEntries(n, i);
      a[triIndex] := coneBaseIndex;
      a[triIndex + 1] := coneBaseIndex + i + 1;
      a[triIndex + 2] := coneBaseIndex + (i + 1) % n + 1;
      triIndex := triIndex + 3;
      i := i + 1;
    }
  }

  /** The six entries of shaft quad `i`. */
  lemma ShaftQuadEntries(n: nat, i: nat)
    requires i < n
    ensures var b := i * 2;
            var wrap := (n + 1) * 2;
            && ExpectedIndex(n, 6 * i) == b
            && ExpectedIndex(n, 6 * i + 1) == b + 1
            && ExpectedIndex(n, 6 * i + 2) == (b + 2) % wrap
            && ExpectedIndex(n, 6 * i + 3) == b + 1
            && ExpectedIndex(n, 6 * i + 4) == (b + 3) % wrap
            && ExpectedIndex(n, 6 * i + 5) == (b + 2) % wrap
  {
    assert (6 * i) / 6 == i && (6 * i + 1) / 6 == i && (6 * i + 2) / 6 == i;
    assert (6 * i + 3) / 6 == i && (6 * i + 4) / 6 == i && (6 * i + 5) / 6 == i;
  }

  /** The three entries of cone triangle `i`. */
  lemma ConeTriangleEntries(n: nat, i: nat)
    requires i < n
    ensures var c := TipIndex(n);
            && ExpectedIndex(n, n * 6 + 3 * i) == c
            && ExpectedIndex(n, n * 6 + 3 * i + 1) == c + i + 1
            && ExpectedIndex(n, n * 6 + 3 * i + 2) == c + (i + 1) % n + 1
  {
    assert (3 * i) / 3 == i && (3 * i + 1) / 3 == i && (3 * i + 2) / 3 == i;
  }

  // ------------------------------------------------------------ properties

  /** Every index the mesh uses names one of its vertices. */
  lemma {:induction false} IndicesInBounds(n: nat)
    ensures forall t :: 0 <= t < IndexCount(n) ==> 0 <= ExpectedIndex(n, t) < VertexCount(n)
  {
    forall t | 0 <= t < IndexCount(n)
      ensures 0 <= ExpectedIndex(n, t) < VertexCount(n)
    {
      if t < n * 6 {
        var i := t / 6;
        assert i < n;
        ShaftQuadEntries(n, i);
        ShaftNeverWraps(n, i);
        assert t == 6 * i + t % 6;
      } else {
        var i := (t - n * 6) / 3;
        assert i < n;
        ConeTriangleEntries(n, i);
        assert t == n * 6 + 3 * i + (t - n * 6) % 3;
      }
    }
  }

  /** The shaft's modulus never takes effect: quad `i` is exactly the two
      triangles (b, b+1, b+2) and (b+1, b+3, b+2) with b = 2 i, all of them
      shaft vertices. */
  lemma {:induction false} ShaftNeverWraps(n: nat, i: nat)
    requires i < n
    ensures var b := 2 * i;
            && b + 3 < TipIndex(n)
            && ExpectedIndex(n, 6 * i) == b
            && ExpectedIndex(n, 6 * i + 1) == b + 1
            && ExpectedIndex(n, 6 * i + 2) == b + 2
            && ExpectedIndex(n, 6 * i + 3) == b + 1
            && ExpectedIndex(n, 6 * i + 4) == b + 3
            && ExpectedIndex(n, 6 * i + 5) == b + 2
  {
    ShaftQuadEntries(n, i);
    SmallModulus(2 * i + 2, (n + 1) * 2);
    SmallModulus(2 * i + 3, (n + 1) * 2);
  }

  lemma SmallModulus(a: nat, m: nat)
    requires a < m
    ensures a % m == a
  {
  }

  /** Cone triangle `i` joins the tip to ring vertices `i` and `i + 1`; the
      last one closes the ring on its first vertex. */
  lemma {:induction false} ConeFan(n: nat, i: nat)
    requires i < n
    ensures var c := TipIndex(n);
            && ExpectedIndex(n, n * 6 + 3 * i) == c
            && ExpectedIndex(n, n * 6 + 3 * i + 1) == c + 1 + i
            && ExpectedIndex(n, n * 6 + 3 * i + 2) == (if i + 1 < n then c + 2 + i else c + 1)
  {
    ConeTriangleEntries(n, i);
    if i + 1 < n {
      SmallModulus(i + 1, n);
    } else {
      SelfModulus(n);
    }
  }

  lemma SelfModulus(n: nat)
    requires n > 0
    ensures n % n == 0
  {
  }

  /** A cone triangle repeats no vertex exactly when there are at least two
      segments; with one segment the single cone triangle is degenerate. The
      shaft triangles never are (see `ShaftNeverWraps`). */
  lemma {:induction false} ConeTriangleDistinct(n: nat, i: nat)
    requires i < n
    ensures var t := n * 6 + 3 * i;
            n >= 2 <==> (&& ExpectedIndex(n, t) != ExpectedIndex(n, t + 1)
                         && ExpectedIndex(n, t + 1) != ExpectedIndex(n, t + 2)
                         && ExpectedIndex(n, t) != ExpectedIndex(n, t + 2))
  {
    ConeFan(n, i);
  }

  /** The vertex loops of `CreateArrowMesh` place the shaft's bottom circle at
      height zero, its top circle and the cone ring at the shaft height, and
      the tip alone at the top of the cone. */
  lemma {:induction false} VertexHeights(n: nat, k: nat)
    requires k < VertexCount(n)
    ensures var v := ExpectedVertex(n, k);
            && (v.y == ShaftHeight + ConeHeight <==> k == TipIndex(n))
            && (v.y == 0.0 <==> k < TipIndex(n) && k % 2 == 0)
            && (v.y == ShaftHeight <==> (k < TipIndex(n) && k % 2 == 1) || k > TipIndex(n))
            && 0.0 <= v.y <= ShaftHeight + ConeHeight
            && (v.radius == 0.0 <==> k == TipIndex(n))
            && 0 <= v.step <= n
  {
  }

  /** With at least one segment every vertex belongs to some triangle. */
  lemma {:induction false} EveryVertexUsed(n: nat, k: nat)
    requires 1 <= n && k < VertexCount(n)
    ensures exists t :: 0 <= t < IndexCount(n) && ExpectedIndex(n, t) == k
  {
    var c := TipIndex(n);
    if k < c - 2 {
      ShaftVertexUsed(n, k);
    } else if k < c {
      SeamVertexUsed(n, k);
    } else {
      ConeVertexUsed(n, k);
    }
  }

  /** The seam pair closes the last quad. */
  lemma SeamVertexUsed(n: nat, k: nat)
    requires 1 <= n && TipIndex(n) - 2 <= k < TipIndex(n)
    ensures exists t :: 0 <= t < IndexCount(n) && ExpectedIndex(n, t) == k
  {
    ShaftNeverWraps(n, n - 1);
    if k == TipIndex(n) - 2 {
      assert ExpectedIndex(n, 6 * (n - 1) + 2) == k;
    } else {
      assert ExpectedIndex(n, 6 * (n - 1) + 4) == k;
    }
  }

  /** The tip is in the first cone triangle, ring vertex `i` in the `i`-th. */
  lemma ConeVertexUsed(n: nat, k: nat)
    requires 1 <= n && TipIndex(n) <= k < VertexCount(n)
    ensures exists t :: 0 <= t < IndexCount(n) && ExpectedIndex(n, t) == k
  {
    var c := TipIndex(n);
    if k == c {
      ConeFan(n, 0);
      assert ExpectedIndex(n, n * 6) == k;
    } else {
      var i := k - c - 1;
      ConeFan(n, i);
      assert ExpectedIndex(n, n * 6 + 3 * i + 1) == k;
    }
  }

  /** Shaft vertex `k` below the seam pair opens quad `k / 2`. */
  lemma ShaftVertexUsed(n: nat, k: nat)
    requires k < 2 * n
    ensures exists t :: 0 <= t < IndexCount(n) && ExpectedIndex(n, t) == k
  {
    var i := k / 2;
    Halves(k);
    ShaftNeverWraps(n, i);
    if k % 2 == 0 {
      assert ExpectedIndex(n, 6 * i) == k;
    } else {
      assert ExpectedIndex(n, 6 * i + 1) == k;
    }
  }

  lemma Halves(k: nat)
    ensures k == 2 * (k / 2) + k % 2 && (k % 2 == 0 || k % 2 == 1)
  {
  }

  // ------------------------------------------------------------------ cache

  /** The shared mesh is either not built yet or is the default arrow. */
  predicate ValidCache(cache: Option<Mesh>)
  {
    cache.Some? ==> cache.value == ExpectedMesh(Segments)
  }

  /** The cache step shared by both `DrawMeshArrow` overloads, the null test
      on the cached mesh that each of them makes first: the mesh is built on
      first use and reused afterwards. Returns the mesh handed on for drawing,
      the cache after the call, and whether this call built the mesh. */
  method DrawMeshArrow(cache: Option<Mesh>) returns (drawn: Mesh, next: Option<Mesh>, built: bool)
    requires ValidCache(cache)
    ensures ValidCache(next) && next == Some(drawn)
    ensures built <==> cache.None?
    ensures cache.Some? ==> next == cache
    ensures |drawn.vertices| == 57 && |drawn.triangles| == 162
  {
    if cache.None? {
      var mesh := CreateArrowMesh(Segments);
      next := Some(mesh);
      built := true;
    } else {
      next := cache;
      built := false;
    }
    drawn := next.value;
  }

  /** Two draws in a row build the mesh at most once, and draw the same mesh. */
  method DrawTwice(cache: Option<Mesh>) returns (first: Mesh, second: Mesh, builds: nat)
    requires ValidCache(cache)
    ensures builds <= 1 && (builds == 1 <==> cache.None?)
    ensures first == second == ExpectedMesh(Segments)
  {
    var built1, built2;
    var c1, c2;
    first, c1, built1 := DrawMeshArrow(cache);
    second, c2, built2 := DrawMeshArrow(c1);
    builds := (if built1 then 1 else 0) + (if built2 then 1 else 0);
  }
}
