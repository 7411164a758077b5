/** The records shared between components (src/lib/types.ts). */
module Types {
  import opened Vectors

  /**
   * One thought as listed by the backend. `created_at` is a date string in the source; here it is
   * its timestamp. `position` is the backend's 3D layout coordinate and `clusterLabel` its cluster number (`label` in the source).
   */
  datatype ThoughtRecord = ThoughtRecord(
    id: string,
    title: string,
    excerpt: string,
    createdAt: int,
    position: Vec3,
    clusterLabel: nat)

  /** One chat session; `created_at`/`updated_at` are timestamps. */
  datatype ChatSession = ChatSession(id: string, title: string, createdAt: int, updatedAt: int)

  /**
   * A full thought as the detail endpoint returns it (the `Thought` interface of the thought
   * modal). Free-form `meta` is not modelled.
   */
  datatype Thought = Thought(
    id: string,
    title: string,
    textContent: string,
    imageUrl: string,
    audioUrl: string,
    fullContent: string,
    createdAt: int,
    updatedAt: int,
    tags: seq<string>)
}
