/** The post resolvers, backed by an in-memory array of posts. */
module PostResolvers {

  /** A field value of a post object. */
  datatype Value = Num(n: int) | Text(s: string)

  /** A post object: its fields by name. */
  type PostObject = map<string, Value>

  /** `{ id: count + 1, ...input }`: the spread comes last, so an `id` in the input wins. */
  function NewPostObject(count: nat, input: PostObject): (post: PostObject)
    ensures post.Keys == input.Keys + {"id"}
    ensures forall k :: k in input ==> post[k] == input[k]
    ensures "id" !in input ==> post["id"] == Num(count + 1)
  {
    map["id" := Num(count + 1)] + input
  }

  /** The array after one `newPost`. */
  function Append(posts: seq<PostObject>, input: PostObject): (next: seq<PostObject>)
    ensures |next| == |posts| + 1 && next[..|posts|] == posts
    ensures next[|posts|] == NewPostObject(|posts|, input)
  {
    posts + [NewPostObject(|posts|, input)]
  }

  /** The array after a run of `newPost` calls. */
  function AppendAll(posts: seq<PostObject>, inputs: seq<PostObject>): seq<PostObject>
    decreases |inputs|
  {
    if inputs == [] then posts else AppendAll(Append(posts, inputs[0]), inputs[1..])
  }

  /** Successive posts without their own id are numbered n+1, n+2, ... after the n posts
      already there (each new post's id is its position plus one), and those n are kept as
      they were. */
  lemma {:induction false} SuccessiveIds(posts: seq<PostObject>, inputs: seq<PostObject>)
    requires forall j :: 0 <= j < |inputs| ==> "id" !in inputs[j]
    ensures |AppendAll(posts, inputs)| == |posts| + |inputs|
    ensures AppendAll(posts, inputs)[..|posts|] == posts
    ensures forall i :: |posts| <= i < |AppendAll(posts, inputs)| ==>
      "id" in AppendAll(posts, inputs)[i] && AppendAll(posts, inputs)[i]["id"] == Num(i + 1)
    decreases |inputs|
  {
    if inputs != [] {
      var next := Append(posts, inputs[0]);
      SuccessiveIds(next, inputs[1..]);
      var all := AppendAll(posts, inputs);
      assert all == AppendAll(next, inputs[1..]);
      assert all[..|posts|] == all[..|next|][..|posts|];
      assert all[|posts|] == all[..|next|][|posts|] == next[|posts|];
    }
  }

  /** The resolvers' shared array. */
  class PostStore {
    var posts: seq<PostObject>

    /** The array's initial contents are not part of this model and are arbitrary. */
    constructor (initial: seq<PostObject>)
      ensures posts == initial
    {
      posts := initial;
    }

    /** `totalPosts`: the number of posts. */
    function TotalPosts(): (n: nat)
      reads this
      ensures n == |posts|
    {
      |posts|
    }

    /** `allPosts`: every post, in insertion order. */
    function AllPosts(): (all: seq<PostObject>)
      reads this
      ensures all == posts
    {
      posts
    }

    /** `newPost`: appends the new object and returns it. */
    method NewPost(input: PostObject) returns (post: PostObject)
      modifies this
      ensures posts == Append(old(posts), input)
      ensures post == posts[|posts| - 1] && TotalPosts() == old(TotalPosts()) + 1
      ensures forall k :: k in input ==> k in post && post[k] == input[k]
      ensures "id" !in input ==> post["id"] == Num(old(|posts|) + 1)
    {
      post := NewPostObject(|posts|, input);
      posts := posts + [post];
    }
  }
}
