/** The social-network client the notifiers talk to, reduced to what they
    use: a follower list, a counter of how often it was fetched, and the log of
    direct messages sent. */
module Transport {

  /** A follower as the client returns it (`follower.id`, `follower.screen_name`). */
  datatype Follower = Follower(id: int, screenName: string)

  /** One `send_direct_message(user_id=…, text=…)` call. */
  datatype DirectMessage = DirectMessage(userId: int, text: string)

  class Api {
    /** What `followers()` answers. */
    const followerList: seq<Follower>
    /** How many times `followers()` has been called. */
    var fetches: nat
    /** Every direct message sent so far, oldest first. */
    var outbox: seq<DirectMessage>

    constructor (followers: seq<Follower>)
      ensures followerList == followers && fetches == 0 && outbox == []
    {
      followerList := followers;
      fetches := 0;
      outbox := [];
    }

    /** `api.followers()`. */
    method Followers() returns (fs: seq<Follower>)
      modifies this`fetches
      ensures fs == followerList && fetches == old(fetches) + 1
    {
      fetches := fetches + 1;
      fs := followerList;
    }

    /** `api.send_direct_message(user_id=userId, text=text)`. */
    method SendDirectMessage(userId: int, text: string)
      modifies this`outbox
      ensures outbox == old(outbox) + [DirectMessage(userId, text)]
    {
      outbox := outbox + [DirectMessage(userId, text)];
    }
  }

  /** The messages of one sweep over `followers`: one per follower, in
      follower order, each carrying `text` unchanged. */
  function Broadcast(followers: seq<Follower>, text: string): (r: seq<DirectMessage>)
    ensures |r| == |followers|
    ensures forall i :: 0 <= i < |r| ==> r[i].userId == followers[i].id && r[i].text == text
    decreases |followers|
  {
    if followers == [] then []
    else Broadcast(followers[..|followers| - 1], text)
         + [DirectMessage(followers[|followers| - 1].id, text)]
  }
}
