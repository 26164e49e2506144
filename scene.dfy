/** `Scene` of `src/game/scene.js`: a game object without a name that is
    built from the objects it holds. */
module Scenes {
  import opened Numbers
  import opened Vectors
  import opened Arguments
  import opened Game

  /** `new Scene(...children)`: a new game object with no name, to which the
      arguments are added, so that the scene holds exactly the game objects
      among them, in order, and is the parent of each. */
  method NewScene(math: HostMath, xs: seq<Arg<GameObject>>) returns (scene: GameObject)
    modifies (set c | c in Instances(xs))`parent
    ensures fresh(scene) && scene.Valid() && scene.name == None
    ensures scene.children == Instances(xs) && scene.parent == null
    ensures forall c :: c in Instances(xs) ==> c.parent == scene
    ensures forall i :: 0 <= i < |xs| && xs[i].Instance? ==>
              && xs[i].obj.mesh == old(xs[i].obj.mesh)
              && xs[i].obj.worldNeedsUpdate == old(xs[i].obj.worldNeedsUpdate)
              && xs[i].obj.viewNeedsUpdate == old(xs[i].obj.viewNeedsUpdate)
              && xs[i].obj.children == old(xs[i].obj.children)
    ensures scene.worldNeedsUpdate && scene.viewNeedsUpdate
    ensures scene.position.Value() == Zero && scene.rotation.Value() == Zero && scene.scale.Value() == One
  {
    scene := new GameObject(math, None);
    InstancesMembers(xs);
    var r := scene.Add(xs);
  }
}
