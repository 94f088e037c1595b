/** The part of a loaded model that the POI components write to: the nodes
    of the cloned scene graph, in traversal order, and the material fields
    (emissive colour and intensity, transparency, opacity) that the
    `traverse` callbacks overwrite in place. */
module Materials {

  datatype Material = Material(emissive: int, emissiveIntensity: real, transparent: bool, opacity: real)

  /** A scene-graph node; only meshes that carry a material are written. */
  datatype Node = Node(isMesh: bool, material: MaterialSlot)

  datatype MaterialSlot = NoMaterial | HasMaterial(m: Material)

  predicate Writable(n: Node) {
    n.isMesh && n.material.HasMaterial?
  }

  /** The node after a traverse callback that rewrites its material with `f`
      when `child.isMesh && child.material`. */
  function Rewritten(n: Node, f: Material -> Material): (r: Node)
    ensures Writable(n) ==> r == Node(true, HasMaterial(f(n.material.m)))
    ensures !Writable(n) ==> r == n
    ensures r.isMesh == n.isMesh && Writable(r) == Writable(n)
  {
    if Writable(n) then n.(material := HasMaterial(f(n.material.m))) else n
  }

  function RewrittenAll(s: seq<Node>, f: Material -> Material): (r: seq<Node>)
    ensures |r| == |s|
    ensures forall i :: 0 <= i < |s| ==> r[i] == Rewritten(s[i], f)
    ensures forall i :: 0 <= i < |s| ==> r[i].isMesh == s[i].isMesh && Writable(r[i]) == Writable(s[i])
    ensures forall i :: 0 <= i < |s| && !Writable(s[i]) ==> r[i] == s[i]
  {
    seq(|s|, i requires 0 <= i < |s| => Rewritten(s[i], f))
  }

  /** The emissive write of the hover and glow effects. */
  function SetEmissive(color: int, intensity: real): Material -> Material
  {
    (m: Material) => m.(emissive := color, emissiveIntensity := intensity)
  }

  /** `scene.traverse(child => { if (child.isMesh && child.material) ... })`:
      rewrites every mesh material in place, in traversal order. */
  method Traverse(nodes: array<Node>, f: Material -> Material)
    modifies nodes
    ensures nodes[..] == RewrittenAll(old(nodes[..]), f)
  {
    var i := 0;
    while i < nodes.Length
      invariant 0 <= i <= nodes.Length
      invariant forall k :: 0 <= k < i ==> nodes[k] == Rewritten(old(nodes[k]), f)
      invariant forall k :: i <= k < nodes.Length ==> nodes[k] == old(nodes[k])
    {
      var child := nodes[i];
      if child.isMesh && child.material.HasMaterial? {
        nodes[i] := child.(material := HasMaterial(f(child.material.m)));
      }
      i := i + 1;
    }
  }

  /** A traverse leaves the node structure alone: the same nodes are meshes
      and carry materials, and non-mesh nodes are untouched. */
  lemma RewriteKeepsShape(s: seq<Node>, f: Material -> Material, i: int)
    requires 0 <= i < |s|
    ensures RewrittenAll(s, f)[i].isMesh == s[i].isMesh
    ensures Writable(RewrittenAll(s, f)[i]) == Writable(s[i])
    ensures !Writable(s[i]) ==> RewrittenAll(s, f)[i] == s[i]
  {
  }
}
