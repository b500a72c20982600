/** Enrolment (server/controller/order.controller.ts): `createOrder` checks the
    stored user's enrolments, then the course, then mails the confirmation;
    only then is the course added to the user, a notification created, the
    purchase counter updated and the order recorded. */
module OrderController {
  import opened Js
  import opened Errors
  import opened UserModel
  import CourseModel
  import opened Documents
  import opened Http
  import opened Store

  const AlreadyEnrolled := Handler(400, "You already enrolled this course")
  const CourseNotFound := Handler(404, "Course not found")

  /** `course.purchased ? (course.purchased += 1) : course.purchased`: the
      counter moves only when it is already non-zero. */
  function NextPurchased(purchased: int): (n: int)
    ensures purchased != 0 ==> n == purchased + 1
    ensures purchased == 0 ==> n == 0
  {
    if purchased != 0 then purchased + 1 else purchased
  }

  /** A course no one has bought yet stays at zero however many orders are
      placed for it. */
  lemma {:induction false} ZeroPurchasedNeverMoves(orders: nat)
    ensures Repeat(NextPurchased, 0, orders) == 0
  {
    if orders > 0 {
      ZeroPurchasedNeverMoves(orders - 1);
    }
  }

  /** A counter that has moved counts every later order. */
  lemma {:induction false} PositivePurchasedCounts(purchased: nat, orders: nat)
    requires purchased > 0
    ensures Repeat(NextPurchased, purchased, orders) == purchased + orders
  {
    if orders > 0 {
      PositivePurchasedCounts(purchased, orders - 1);
    }
  }

  /** `f` applied `n` times. */
  function Repeat(f: int -> int, x: int, n: nat): int {
    if n == 0 then x else f(Repeat(f, x, n - 1))
  }

  /** The notification the administrators receive. The message ends with the
      stray `}` the template literal holds. */
  function OrderNotification(user: User, course: CourseModel.Course): (n: Notification)
    ensures n.userId == user.id && n.title == "New Order"
    ensures n.message == "Hey, new order from user " + user.name + " for the course " + course.name + "}"
  {
    Notification(user.id, "New Order", "Hey, new order from user " + user.name + " for the course " + course.name + "}")
  }

  /** The confirmation mail: the first six characters of the course id, the
      course name and its price. */
  function ConfirmationMail(user: User, course: CourseModel.Course): (m: Mail)
    ensures m.to == user.email && m.subject == "Order Confirmation" && m.template == "order-confirmation.ejs"
    ensures m.data == OrderMail(SliceTo(NatToString(course.id), 6), course.name, course.price)
    ensures |m.data.orderId| <= 6
  {
    Mail(user.email, "Order Confirmation", "order-confirmation.ejs",
         OrderMail(SliceTo(NatToString(course.id), 6), course.name, course.price))
  }

  /** `createOrder` for the user of `req.user`, as stored. The three refusals
      change nothing; a mail failure is answered before anything is written.
      `attempted` is the mail handed to the sender, if any. */
  method CreateOrder(w: World, courseId: nat, mail: MailOutcome) returns (reply: Reply, attempted: Option<Mail>)
    requires w.Valid() && w.reqUser.Some?
    modifies w`users, w`courses, w`notifications, w`orders
    ensures w.Valid()
    ensures var me := w.reqUser.value.id;
            courseId in old(w.users)[me].courses ==>
              reply == Forwarded(AlreadyEnrolled) && attempted.None? && unchanged(w)
    ensures var me := w.reqUser.value.id;
            courseId !in old(w.users)[me].courses && courseId !in old(w.courses) ==>
              reply == Forwarded(CourseNotFound) && attempted.None? && unchanged(w)
    ensures var me := w.reqUser.value.id;
            courseId !in old(w.users)[me].courses && courseId in old(w.courses) ==>
              attempted == Some(ConfirmationMail(old(w.users)[me], old(w.courses)[courseId]))
    ensures var me := w.reqUser.value.id;
            courseId !in old(w.users)[me].courses && courseId in old(w.courses) && mail.MailFailed? ==>
              reply == Forwarded(Handler(500, mail.message)) && unchanged(w)
    ensures var me := w.reqUser.value.id;
            var u := old(w.users)[me];
            courseId !in u.courses && courseId in old(w.courses) && mail.Delivered? ==>
              var course := old(w.courses)[courseId];
              reply == Sent(201, OrderPlaced(Order(courseId, me))) &&
              w.users == old(w.users)[me := u.(courses := u.courses + [courseId])] &&
              w.notifications == old(w.notifications) + [OrderNotification(u, course)] &&
              w.courses == old(w.courses)[courseId := course.(purchased := NextPurchased(course.purchased))] &&
              w.orders == old(w.orders) + [Order(courseId, me)]
  {
    var me := w.reqUser.value.id;
    var user := Select(w.users[me], false);
    if courseId in user.courses {
      return Forwarded(AlreadyEnrolled), None;
    }
    if courseId !in w.courses {
      return Forwarded(CourseNotFound), None;
    }
    var course := w.courses[courseId];
    var order := Order(course.id, user.id);
    attempted := Some(ConfirmationMail(user, course));
    if mail.MailFailed? {
      return Forwarded(Handler(500, mail.message)), attempted;
    }
    user := user.(courses := user.courses + [course.id]);
    FindOwnEmail(w.users, me);
    ReadDocumentValidates(w.users[me], user);
    var saved := w.Save(user);
    assert saved == Success(user);
    w.notifications := w.notifications + [OrderNotification(user, course)];
    course := course.(purchased := NextPurchased(course.purchased));
    w.courses := w.courses[courseId := course];
    w.orders := w.orders + [order];
    reply := Sent(201, OrderPlaced(order));
  }
}
