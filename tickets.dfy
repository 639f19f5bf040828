/** Support tickets: who may see a ticket (`read_ticket_details`), the ticket table's updates
    (`create_ticket` with auto-assignment to the creator's manager, `assign_ticket`,
    `update_ticket_status`, `create_ticket_reply`) and the caller's own ticket list
    (`read_my_tickets`). The store holds the rows those handlers read and write; `now` is the
    database clock's reading, passed in. */
module Tickets {
  import opened Common
  import opened Models

  const ReadAllPermission := "tickets:read:all"

  const TicketNotFound := HttpError(404, "Ticket not found")
  const AssigneeNotFound := HttpError(404, "Assignee user not found")
  const NotAuthorized := HttpError(403, "Not authorized to view this ticket")

  /** A ticket row. `status == None` stands for the column's default. */
  datatype Ticket = Ticket(id: int, title: string, createdBy: int, assignedTo: Option<int>,
                           status: Option<string>, updatedAt: int)

  /** A reply row. */
  datatype Reply = Reply(id: nat, message: string, ticketId: int, userId: int)

  /** The visibility rule: the creator, the assignee, or a holder of `tickets:read:all`. */
  predicate CanView(t: Ticket, u: User, permissions: set<string>)
  {
    t.createdBy == u.id || t.assignedTo == Some(u.id) || ReadAllPermission in permissions
  }

  /** `read_ticket_details`. The permission names are collected from the role before the rule
      is checked, so a user without a role is refused with an escaping error even on their own
      ticket. */
  function ReadTicketDetails(tickets: map<int, Ticket>, ticketId: int, user: User): (r: Result<Ticket, Error>)
    ensures ticketId !in tickets ==> r == Failure(TicketNotFound)
    ensures ticketId in tickets && user.role.None? ==> r == Failure(Uncaught("AttributeError"))
    ensures r.Success? <==>
              ticketId in tickets && user.role.Some? && CanView(tickets[ticketId], user, user.role.value.permissions)
    ensures r.Success? ==> r.value == tickets[ticketId]
    ensures ticketId in tickets && user.role.Some? && r.Failure? ==> r == Failure(NotAuthorized)
  {
    if ticketId !in tickets then Failure(TicketNotFound)
    else if user.role.None? then Failure(Uncaught("AttributeError"))
    else
      var t := tickets[ticketId];
      if !(t.createdBy == user.id || t.assignedTo == Some(user.id) || ReadAllPermission in user.role.value.permissions)
      then Failure(NotAuthorized)
      else Success(t)
  }

  /** The rule never depends on anything but the three facts it names: a creator or assignee keeps
      access whatever the role grants, and `tickets:read:all` opens every ticket. */
  lemma VisibilityIndependentOfOtherPermissions(tickets: map<int, Ticket>, ticketId: int, user: User, r1: Role, r2: Role)
    requires ticketId in tickets
    requires tickets[ticketId].createdBy == user.id || tickets[ticketId].assignedTo == Some(user.id)
    ensures ReadTicketDetails(tickets, ticketId, user.(role := Some(r1))).Success?
    ensures ReadTicketDetails(tickets, ticketId, user.(role := Some(r2))).Success?
  {
  }

  /** The ticket table and the reply table. */
  class TicketStore {
    var tickets: map<int, Ticket>
    var replies: seq<Reply>
    var nextTicketId: int
    var nextReplyId: nat

    /** Rows are stored under their own id, below the next id to be handed out; reply ids grow
        in table order, so no two replies share one. */
    ghost predicate Valid()
      reads this
    {
      && (forall k | k in tickets :: tickets[k].id == k && k < nextTicketId)
      && (forall i | 0 <= i < |replies| :: replies[i].id < nextReplyId)
      && (forall i, j | 0 <= i < j < |replies| :: replies[i].id < replies[j].id)
    }

    constructor ()
      ensures Valid() && tickets == map[] && replies == []
    {
      tickets := map[];
      replies := [];
      nextTicketId := 1;
      nextReplyId := 1;
    }

    /** `create_ticket`: the caller is the creator; the ticket goes to the caller's manager when
        `manager_id` is set (None and 0 are both unset), otherwise it stays unassigned. A first
        reply with the initial message is stored, authored by the caller. */
    method CreateTicket(title: string, initialMessage: string, user: User, now: int) returns (t: Ticket)
      requires Valid()
      modifies this
      ensures Valid()
      ensures t.id == old(nextTicketId) && t.id !in old(tickets)
      ensures t.title == title && t.createdBy == user.id && t.status.None? && t.updatedAt == now
      ensures t.assignedTo == (if IntTruthy(user.managerId) then user.managerId else None)
      ensures tickets == old(tickets)[t.id := t]
      ensures replies == old(replies) + [Reply(old(nextReplyId), initialMessage, t.id, user.id)]
      ensures forall x | x in old(replies) :: x.id < old(nextReplyId)
      ensures nextTicketId == old(nextTicketId) + 1 && nextReplyId == old(nextReplyId) + 1
    {
      t := Ticket(nextTicketId, title, user.id, None, None, now);
      if user.managerId.Some? && user.managerId.value != 0 {
        t := t.(assignedTo := user.managerId);
      }
      tickets := tickets[t.id := t];
      nextTicketId := nextTicketId + 1;
      replies := replies + [Reply(nextReplyId, initialMessage, t.id, user.id)];
      nextReplyId := nextReplyId + 1;
    }

    /** `assign_ticket`: the ticket is looked up before the assignee, and only the assignee
        column changes. */
    method AssignTicket(ticketId: int, assigneeId: int, users: map<int, User>) returns (r: Result<Ticket, Error>)
      requires Valid()
      modifies this
      ensures Valid()
      ensures ticketId !in old(tickets) ==> r == Failure(TicketNotFound) && tickets == old(tickets)
      ensures ticketId in old(tickets) && assigneeId !in users ==> r == Failure(AssigneeNotFound) && tickets == old(tickets)
      ensures ticketId in old(tickets) && assigneeId in users ==>
                r == Success(old(tickets)[ticketId].(assignedTo := Some(assigneeId))) &&
                tickets == old(tickets)[ticketId := r.value]
      ensures replies == old(replies)
      ensures nextTicketId == old(nextTicketId) && nextReplyId == old(nextReplyId)
    {
      if ticketId !in tickets {
        return Failure(TicketNotFound);
      }
      if assigneeId !in users {
        return Failure(AssigneeNotFound);
      }
      var t := tickets[ticketId].(assignedTo := Some(assigneeId));
      tickets := tickets[ticketId := t];
      r := Success(t);
    }

    /** `update_ticket_status`: 404 for a missing ticket, otherwise only the status changes. */
    method UpdateTicketStatus(ticketId: int, status: string) returns (r: Result<Ticket, Error>)
      requires Valid()
      modifies this
      ensures Valid()
      ensures ticketId !in old(tickets) ==> r == Failure(TicketNotFound) && tickets == old(tickets)
      ensures ticketId in old(tickets) ==>
                r == Success(old(tickets)[ticketId].(status := Some(status))) &&
                tickets == old(tickets)[ticketId := r.value]
      ensures replies == old(replies)
      ensures nextTicketId == old(nextTicketId) && nextReplyId == old(nextReplyId)
    {
      if ticketId !in tickets {
        return Failure(TicketNotFound);
      }
      var t := tickets[ticketId].(status := Some(status));
      tickets := tickets[ticketId := t];
      r := Success(t);
    }

    /** `create_ticket_reply` as written: after the visibility check, the reply is committed,
        and then the `updated_at` bump names `func`, which the module never imports. The
        NameError turns every permitted reply into a server error although the reply is
        already stored, and the ticket's `updated_at` never moves. */
    method CreateTicketReplyAsWritten(ticketId: int, message: string, user: User, now: int) returns (r: Result<Reply, Error>)
      requires Valid()
      modifies this
      ensures Valid()
      ensures ReadTicketDetails(old(tickets), ticketId, user).Failure? ==>
                r == Failure(ReadTicketDetails(old(tickets), ticketId, user).error) && replies == old(replies)
      ensures ReadTicketDetails(old(tickets), ticketId, user).Success? ==>
                r == Failure(Uncaught("NameError")) &&
                replies == old(replies) + [Reply(old(nextReplyId), message, ticketId, user.id)] &&
                (forall x | x in old(replies) :: x.id < old(nextReplyId))
      ensures tickets == old(tickets) && nextTicketId == old(nextTicketId)
      ensures nextReplyId == old(nextReplyId) + (if ReadTicketDetails(old(tickets), ticketId, user).Success? then 1 else 0)
    {
      var check := ReadTicketDetails(tickets, ticketId, user);
      if check.Failure? {
        return Failure(check.error);
      }
      var reply := Reply(nextReplyId, message, ticketId, user.id);
      replies := replies + [reply];
      nextReplyId := nextReplyId + 1;
      r := Failure(Uncaught("NameError"));
    }

    /** `create_ticket_reply` with the timestamp update working: the reply is stored and
        returned, and the parent ticket's `updated_at` becomes `now`; nothing else changes. */
    method CreateTicketReply(ticketId: int, message: string, user: User, now: int) returns (r: Result<Reply, Error>)
      requires Valid()
      modifies this
      ensures Valid()
      ensures ReadTicketDetails(old(tickets), ticketId, user).Failure? ==>
                r == Failure(ReadTicketDetails(old(tickets), ticketId, user).error) &&
                replies == old(replies) && tickets == old(tickets)
      ensures ReadTicketDetails(old(tickets), ticketId, user).Success? ==>
                r == Success(Reply(old(nextReplyId), message, ticketId, user.id)) &&
                replies == old(replies) + [r.value] &&
                tickets == old(tickets)[ticketId := old(tickets)[ticketId].(updatedAt := now)]
      // the new reply's id is fresh
      ensures r.Success? ==> forall x | x in old(replies) :: x.id < r.value.id
      ensures nextTicketId == old(nextTicketId)
      ensures nextReplyId == old(nextReplyId) + (if r.Success? then 1 else 0)
    {
      var check := ReadTicketDetails(tickets, ticketId, user);
      if check.Failure? {
        return Failure(check.error);
      }
      var reply := Reply(nextReplyId, message, ticketId, user.id);
      replies := replies + [reply];
      nextReplyId := nextReplyId + 1;
      tickets := tickets[ticketId := tickets[ticketId].(updatedAt := now)];
      r := Success(reply);
    }
  }

  /** The creator can always reply to a ticket they opened (given a role), and after the
      corrected reply the ticket they see carries the new `updated_at`. */
  method CreatorRepliesToOwnTicket(store: TicketStore, title: string, first: string, second: string,
                                   user: User, created: int, later: int)
    returns (t: Ticket, reply: Result<Reply, Error>)
    requires store.Valid() && user.role.Some?
    modifies store
    ensures reply.Success? && reply.value.ticketId == t.id && reply.value.userId == user.id
    ensures ReadTicketDetails(store.tickets, t.id, user) == Success(t.(updatedAt := later))
  {
    t := store.CreateTicket(title, first, user, created);
    reply := store.CreateTicketReply(t.id, second, user, later);
  }

  /** `created_by_user_id == user_id`, in table order. */
  function CreatedBy(rows: seq<Ticket>, userId: int): (r: seq<Ticket>)
    ensures forall t :: t in r <==> t in rows && t.createdBy == userId
    ensures multiset(r) <= multiset(rows)
    // each of the caller's tickets as often as it is stored, no other ticket at all
    ensures forall t :: multiset(r)[t] == if t.createdBy == userId then multiset(rows)[t] else 0
  {
    if rows == [] then []
    else
      assert rows == [rows[0]] + rows[1..];
      (if rows[0].createdBy == userId then [rows[0]] else []) + CreatedBy(rows[1..], userId)
  }

  /** `ORDER BY updated_at DESC`: most recently updated first. */
  predicate NewestFirst(s: seq<Ticket>)
  {
    forall i, j | 0 <= i < j < |s| :: s[i].updatedAt >= s[j].updatedAt
  }

  /** Puts `t` before the first ticket updated no later than it. */
  function Insert(t: Ticket, s: seq<Ticket>): (r: seq<Ticket>)
    requires NewestFirst(s)
    ensures NewestFirst(r)
    ensures |r| == |s| + 1
    ensures r[0] == t || (s != [] && r[0] == s[0])
  {
    if s == [] || s[0].updatedAt <= t.updatedAt then
      [t] + s
    else
      var rest := Insert(t, s[1..]);
      assert rest[0].updatedAt <= s[0].updatedAt;
      [s[0]] + rest
  }

  /** Insertion adds exactly one copy of `t` and loses nothing. */
  lemma {:induction false} InsertCounts(t: Ticket, s: seq<Ticket>)
    requires NewestFirst(s)
    ensures multiset(Insert(t, s)) == multiset(s) + multiset{t}
  {
    if s != [] && s[0].updatedAt > t.updatedAt {
      InsertCounts(t, s[1..]);
      assert s == [s[0]] + s[1..];
    }
  }

  /** `s` ordered most recently updated first. */
  function SortNewestFirst(s: seq<Ticket>): (r: seq<Ticket>)
    ensures NewestFirst(r)
    ensures |r| == |s|
  {
    if s == [] then [] else Insert(s[0], SortNewestFirst(s[1..]))
  }

  /** The ordering is a permutation: every ticket keeps its number of copies. */
  lemma {:induction false} SortCounts(s: seq<Ticket>)
    ensures multiset(SortNewestFirst(s)) == multiset(s)
  {
    if s != [] {
      var rest := SortNewestFirst(s[1..]);
      SortCounts(s[1..]);
      InsertCounts(s[0], rest);
      ConsCounts(s, rest, SortNewestFirst(s));
    }
  }

  /** Putting the head back into a permutation of the tail gives a permutation of the whole. */
  lemma ConsCounts(s: seq<Ticket>, rest: seq<Ticket>, r: seq<Ticket>)
    requires s != [] && multiset(rest) == multiset(s[1..])
    requires multiset(r) == multiset(rest) + multiset{s[0]}
    ensures multiset(r) == multiset(s)
  {
    assert s == [s[0]] + s[1..];
  }

  /** `read_my_tickets`: exactly the caller's own tickets, each as often as stored, newest `updated_at` first.
      The order among tickets with equal `updated_at` is the database's choice; this is one. */
  function ReadMyTickets(rows: seq<Ticket>, userId: int): (r: seq<Ticket>)
    ensures NewestFirst(r)
    ensures multiset(r) == multiset(CreatedBy(rows, userId))
    ensures forall t :: t in r <==> t in rows && t.createdBy == userId
  {
    var mine := CreatedBy(rows, userId);
    var r := SortNewestFirst(mine);
    SortCounts(mine);
    assert forall t :: t in r <==> t in multiset(mine);
    r
  }
}
