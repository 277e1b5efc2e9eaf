/** The installation detail page
    (`pages/installation/InstallationDetailPage.tsx`): the status update that
    completes an order, and the page-local photo list. */
module InstallationDetail {
  import opened Types
  import opened Patches
  import opened Collections
  import opened Api
  import opened DataContext

  /** The statuses the page offers, in the order it lists them. */
  const StatusOptions: seq<InstallationStatus> :=
    [InstallationStatus.Scheduled, InstallationStatus.InProgress, InstallationStatus.Completed, InstallationStatus.Delayed]

  lemma StatusOptionsAreAllStatuses()
    ensures |StatusOptions| == 4
    ensures forall s: InstallationStatus :: s in StatusOptions
    ensures forall i, j :: 0 <= i < j < |StatusOptions| ==> StatusOptions[i] != StatusOptions[j]
  {
    forall s: InstallationStatus ensures s in StatusOptions {
      match s
      case Scheduled => assert StatusOptions[0] == s;
      case InProgress => assert StatusOptions[1] == s;
      case Completed => assert StatusOptions[2] == s;
      case Delayed => assert StatusOptions[3] == s;
    }
  }

  /** The payload `handleStatusUpdate` sends: the status and nothing else. */
  function StatusOnly(status: InstallationStatus): (p: InstallationPatch)
    ensures p == NoInstallationChange.(status := Some(status))
  {
    NoInstallationChange.(status := Some(status))
  }

  /** The patch that moves an order on to `Installed`. */
  const ToInstalled := NoSalesOrderChange.(status := Some(OrderStatus.Installed))

  /** `handleStatusUpdate` as a change of the store: update the installation;
      when the chosen status is `Completed` and the update's log could read
      the installation, mark the order `Installed` (a throwing log stops the
      handler before that call). */
  function StatusUpdateEffect(d: AppData, user: Option<User>, installationId: string, orderId: string,
                              status: InstallationStatus, e1: Env, e2: Env): AppData
  {
    var d1 := UpdateInstallationEffect(d, user, installationId, StatusOnly(status), e1);
    if status == InstallationStatus.Completed && FindFirst(d1.installations, InstallationKey, installationId).Some?
    then UpdateSalesOrderEffect(d1, user, orderId, ToInstalled, e2)
    else d1
  }

  /** An update keeps the installation under its id. */
  lemma StatusUpdateKeepsInstallation(d: AppData, user: Option<User>, installationId: string, status: InstallationStatus, env: Env)
    ensures var r := UpdateInstallationEffect(d, user, installationId, StatusOnly(status), env);
      FindFirst(r.installations, InstallationKey, installationId) ==
        match FindFirst(d.installations, InstallationKey, installationId)
        case None => None
        case Some(i) => Some(i.(status := status))
  {
    var f := i => MergeInstallation(i, StatusOnly(status));
    assert forall x :: InstallationKey(x) == installationId ==> InstallationKey(f(x)) == installationId;
    MapWhereFindFirst(d.installations, InstallationKey, installationId, f);
  }

  /** Completing a stored installation sets it `Completed`, moves its order
      (every stored record with that id) to `Installed` and no other order,
      and logs two entries: the completion and the order's status change. */
  lemma CompletionInstallsOrder(d: AppData, user: Option<User>, installationId: string, orderId: string, e1: Env, e2: Env)
    requires FindFirst(d.installations, InstallationKey, installationId).Some?
    ensures var r := StatusUpdateEffect(d, user, installationId, orderId, InstallationStatus.Completed, e1, e2);
      && FindFirst(r.installations, InstallationKey, installationId)
         == Some(FindFirst(d.installations, InstallationKey, installationId).value.(status := InstallationStatus.Completed))
      && |r.salesOrders| == |d.salesOrders|
      && (forall i :: 0 <= i < |d.salesOrders| ==>
            r.salesOrders[i] == if d.salesOrders[i].id == orderId then d.salesOrders[i].(status := OrderStatus.Installed) else d.salesOrders[i])
      && |r.activityLog| == |d.activityLog| + 2
      && r.activityLog[|d.activityLog|].action == "Installation Completed"
      && r.activityLog[|d.activityLog| + 1].action == "Order Status Updated"
  {
    StatusUpdateKeepsInstallation(d, user, installationId, InstallationStatus.Completed, e1);
    var d1 := UpdateInstallationEffect(d, user, installationId, StatusOnly(InstallationStatus.Completed), e1);
    assert d1.salesOrders == d.salesOrders;
    assert |d1.activityLog| == |d.activityLog| + 1;
    var f := o => MergeSalesOrder(o, ToInstalled);
    forall i | 0 <= i < |d.salesOrders|
      ensures MapWhere(d.salesOrders, SalesOrderKey, orderId, f)[i]
              == if d.salesOrders[i].id == orderId then d.salesOrders[i].(status := OrderStatus.Installed) else d.salesOrders[i]
    {
      MapWhereKeepsPositions(d.salesOrders, SalesOrderKey, orderId, f, i);
    }
  }

  /** Any other status leaves the sales orders and the log as they were. */
  lemma OtherStatusKeepsOrders(d: AppData, user: Option<User>, installationId: string, orderId: string,
                               status: InstallationStatus, e1: Env, e2: Env)
    requires status != InstallationStatus.Completed
    ensures var r := StatusUpdateEffect(d, user, installationId, orderId, status, e1, e2);
      r.salesOrders == d.salesOrders && r.activityLog == d.activityLog && r.inventory == d.inventory
  {
  }

  /** The detail page of one installation, shown once the installation, its
      order and the order's customer are all found. */
  class DetailPage {
    const installationId: string
    const orderId: string
    /** The chosen status. */
    var status: InstallationStatus
    /** Photos uploaded on this page; they are never written to the store. */
    var photos: seq<string>

    constructor (inst: Installation, order: SalesOrder)
      requires order.id == inst.orderId
      ensures installationId == inst.id && orderId == order.id && status == inst.status
      ensures photos == match inst.photos case None => [] case Some(p) => p
    {
      installationId, orderId, status := inst.id, order.id, inst.status;
      photos := match inst.photos case None => [] case Some(p) => p;
    }

    method ChooseStatus(s: InstallationStatus)
      modifies this
      ensures status == s && photos == old(photos)
    {
      status := s;
    }

    /** `handlePhotoUpload`, once the file has been read as a data URL:
        append it to the page's list only. */
    method UploadPhoto(dataUrl: string)
      modifies this
      ensures photos == old(photos) + [dataUrl] && status == old(status)
    {
      photos := photos + [dataUrl];
    }

    /** `handleStatusUpdate`: send the status; on `Completed` mark the order
        `Installed`. A log that cannot read the updated installation throws
        and ends the handler. */
    method UpdateStatus(ctx: Context, e1: Env, e2: Env) returns (r: Result<()>)
      modifies ctx.db
      ensures ctx.db.Data() == StatusUpdateEffect(old(ctx.db.Data()), ctx.user, installationId, orderId, status, e1, e2)
      ensures r.Err? <==> status == InstallationStatus.Completed && FindFirst(old(ctx.db.installations), InstallationKey, installationId).None?
    {
      ghost var d0 := ctx.db.Data();
      StatusUpdateKeepsInstallation(d0, ctx.user, installationId, status, e1);
      var updated := ctx.UpdateInstallation(installationId, StatusOnly(status), e1);
      if updated.Err? {
        return Err(updated.error);
      }
      if status == InstallationStatus.Completed {
        var _ := ctx.UpdateSalesOrder(orderId, ToInstalled, e2);
      }
      r := Ok(());
    }
  }
}
