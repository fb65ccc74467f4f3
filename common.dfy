/// Shared vocabulary: optional values, the panics of the Rust code as an
/// explicit error outcome, and entity identities of the ECS world.
module Common {

  datatype Option<+T> = None | Some(value: T)

  /// The reasons for which the modelled code panics.
  datatype PanicReason =
    | TooManyLines        // LineRendererSettings::new on more than 256 lines
    | EmptyPointCloud     // Aabb2d::from_point_cloud on a group with no endpoint
    | NoFirstPoint        // `points.first().unwrap()` on an empty group
    | NoLineHistory       // LineRenderer::get_lines for an entity that has none
    | NoHealthComponent   // HealthManager::damage on an entity without Health
    | NoSuchEntity        // Commands::entity for an entity that was never spawned
    | EmptyRange          // rand's gen_range on an empty range, such as -r..r for r <= 0

  /// The result of a call that either returns or panics.
  datatype Outcome<+T> = Ok(value: T) | Panic(reason: PanicReason)

  /// An ECS entity identity.
  type Entity = nat

  /// No element of `s` occurs twice.
  ghost predicate NoDuplicates<T>(s: seq<T>)
  {
    forall i, j :: 0 <= i < j < |s| ==> s[i] != s[j]
  }
}
