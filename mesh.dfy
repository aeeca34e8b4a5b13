/** A mesh of mesh.h / mesh.cpp: vertex, index and texture lists, and the
    sampler naming of draw, which binds texture i to unit i and names it
    material.texture_diffuseN or material.texture_specularN, N counting the
    textures of that kind from 1. Buffer setup and the draw call itself are
    not modelled. */
module Mesh {
  import opened Vectors
  import opened Gl

  datatype Vertex = Vertex(position: Vec3, normal: Vec3, texCoords: Vec2)

  /** A loaded texture: its GL name, its kind (`type` in the source) and the
      file it came from. */
  datatype Texture = Texture(id: GLuint, textureType: string, path: string)

  const MATERIAL_PREFIX: string := "material."
  const DIFFUSE: string := "texture_diffuse"
  const SPECULAR: string := "texture_specular"

  /** One uniform assignment of draw: the texture unit activated, the
      sampler uniform's name, the integer value set and the texture bound. */
  datatype SamplerBinding = SamplerBinding(unit: nat, uniform: string, value: int, textureId: GLuint)

  function DigitChar(d: nat): (c: char)
    requires d < 10
    ensures '0' <= c <= '9'
  {
    ('0' as int + d) as char
  }

  /** Decimal rendering of a natural number, as std::to_string. */
  function NatToString(n: nat): (s: string)
    ensures |s| >= 1
    ensures forall k :: 0 <= k < |s| ==> '0' <= s[k] <= '9'
    decreases n
  {
    if n < 10 then [DigitChar(n)] else NatToString(n / 10) + [DigitChar(n % 10)]
  }

  /** Different numbers have different decimal renderings. */
  lemma {:induction false} NatToStringInjective(a: nat, b: nat)
    requires NatToString(a) == NatToString(b)
    ensures a == b
    decreases a
  {
    var sa, sb := NatToString(a), NatToString(b);
    if a < 10 && b < 10 {
      assert DigitChar(a) == sa[0] == sb[0] == DigitChar(b);
    } else if a >= 10 && b >= 10 {
      assert DigitChar(a % 10) == sa[|sa| - 1] == sb[|sb| - 1] == DigitChar(b % 10);
      assert NatToString(a / 10) == sa[..|sa| - 1] == sb[..|sb| - 1] == NatToString(b / 10);
      NatToStringInjective(a / 10, b / 10);
    }
    // A one-digit and a longer rendering never coincide.
  }

  /** How many of the first i textures have the given kind. */
  function CountBefore(textures: seq<Texture>, kind: string, i: nat): (c: nat)
    requires i <= |textures|
    ensures c <= i
    decreases i
  {
    if i == 0 then 0
    else CountBefore(textures, kind, i - 1) + (if textures[i - 1].textureType == kind then 1 else 0)
  }

  /** Between two textures of the same kind, the count grows by at least one. */
  lemma {:induction false} CountBeforeGrows(textures: seq<Texture>, kind: string, i: nat, j: nat)
    requires i < j <= |textures| && textures[i].textureType == kind
    ensures CountBefore(textures, kind, j) >= CountBefore(textures, kind, i) + 1
    decreases j
  {
    if j > i + 1 {
      CountBeforeGrows(textures, kind, i, j - 1);
    }
  }

  /** The sampler name of texture i: the diffuse and specular kinds take a
      1-based index among the textures of their own kind, any other kind is
      used as it stands. */
  function SamplerName(textures: seq<Texture>, i: nat): (name: string)
    requires i < |textures|
    ensures textures[i].textureType == DIFFUSE ==>
      name == MATERIAL_PREFIX + DIFFUSE + NatToString(CountBefore(textures, DIFFUSE, i) + 1)
    ensures textures[i].textureType == SPECULAR ==>
      name == MATERIAL_PREFIX + SPECULAR + NatToString(CountBefore(textures, SPECULAR, i) + 1)
    ensures textures[i].textureType != DIFFUSE && textures[i].textureType != SPECULAR ==>
      name == MATERIAL_PREFIX + textures[i].textureType
  {
    var kind := textures[i].textureType;
    var number := if kind == DIFFUSE || kind == SPECULAR then NatToString(CountBefore(textures, kind, i) + 1) else "";
    MATERIAL_PREFIX + kind + number
  }

  /** Equal names built on the same prefix have equal suffixes. */
  lemma SuffixCancel(p: string, s1: string, s2: string)
    requires p + s1 == p + s2
    ensures s1 == s2
  {
    assert s1 == (p + s1)[|p|..];
    assert s2 == (p + s2)[|p|..];
  }

  /** When every texture is diffuse or specular, no two textures get the
      same sampler name. */
  lemma SamplerNamesDistinct(textures: seq<Texture>, i: nat, j: nat)
    requires forall k :: 0 <= k < |textures| ==>
      textures[k].textureType == DIFFUSE || textures[k].textureType == SPECULAR
    requires i < j < |textures|
    ensures SamplerName(textures, i) != SamplerName(textures, j)
  {
    var ki, kj := textures[i].textureType, textures[j].textureType;
    var ni, nj := SamplerName(textures, i), SamplerName(textures, j);
    if ki == kj {
      CountBeforeGrows(textures, ki, i, j);
      if ni == nj {
        var si, sj := NatToString(CountBefore(textures, ki, i) + 1), NatToString(CountBefore(textures, kj, j) + 1);
        assert MATERIAL_PREFIX + ki + si == MATERIAL_PREFIX + ki + sj;
        assert (MATERIAL_PREFIX + ki) + si == (MATERIAL_PREFIX + ki) + sj;
        SuffixCancel(MATERIAL_PREFIX + ki, si, sj);
        NatToStringInjective(CountBefore(textures, ki, i) + 1, CountBefore(textures, kj, j) + 1);
      }
    } else {
      assert ni[17] != nj[17];
    }
  }

  class Mesh {
    var vertices: seq<Vertex>
    var indices: seq<GLuint>
    var textures: seq<Texture>

    /** Stores the three lists unchanged; setupMesh (GL buffers) is not modelled. */
    constructor (vertices: seq<Vertex>, indices: seq<GLuint>, textures: seq<Texture>)
      ensures this.vertices == vertices && this.indices == indices && this.textures == textures
    {
      this.vertices := vertices;
      this.indices := indices;
      this.textures := textures;
    }

    /** The sampler assignments of draw, in order, and the element count of
        its draw call. Changes nothing. */
    method Draw() returns (bindings: seq<SamplerBinding>, elementCount: nat)
      ensures |bindings| == |textures|
      ensures forall i :: 0 <= i < |textures| ==>
        bindings[i] == SamplerBinding(i, SamplerName(textures, i), i, textures[i].id)
      ensures elementCount == |indices|
    {
      var diffuseNr: nat := 1;
      var specularNr: nat := 1;
      bindings := [];
      for i := 0 to |textures|
        invariant |bindings| == i
        invariant diffuseNr == CountBefore(textures, DIFFUSE, i) + 1
        invariant specularNr == CountBefore(textures, SPECULAR, i) + 1
        invariant forall j :: 0 <= j < i ==>
          bindings[j] == SamplerBinding(j, SamplerName(textures, j), j, textures[j].id)
      {
        // Retrieve the texture number (the N in texture_diffuseN)
        var number := "";
        var name := textures[i].textureType;
        if name == DIFFUSE {
          number := NatToString(diffuseNr);
          diffuseNr := diffuseNr + 1;
        } else if name == SPECULAR {
          number := NatToString(specularNr);
          specularNr := specularNr + 1;
        }
        bindings := bindings + [SamplerBinding(i, MATERIAL_PREFIX + name + number, i, textures[i].id)];
      }
      elementCount := |indices|;
    }
  }
}
