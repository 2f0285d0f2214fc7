/**
 * Three proxies in front of an expensive image. Making a RealImage loads it
 * from disk; the virtual proxy makes it on the first display, the caching
 * proxy keeps every image it made in a map shared by all caching proxies, and
 * the protection proxy lets only the roles "admin" and "user" through and
 * then loads lazily on display and on getInfo alike.
 *
 * The load itself is a step of a Disk object that records, in order, every
 * file name loaded. The image's size, a random number in the program, is a
 * parameter of each operation that may load.
 */
module ProxyPattern {
  import Strings

  /** The real subject, fixed once loaded. */
  class RealImage {
    const fileName: string
    const fileSize: int

    constructor (fileName: string, fileSize: int)
      ensures this.fileName == fileName && this.fileSize == fileSize
    {
      this.fileName := fileName;
      this.fileSize := fileSize;
    }

    /** getInfo of the loaded image. */
    function Info(): string {
      "Image: " + fileName + " (" + Strings.IntToString(fileSize) + " bytes)"
    }
  }

  /** The disk: every load, in order. */
  class Disk {
    var loads: seq<string>

    constructor ()
      ensures loads == []
    {
      loads := [];
    }

    /** new RealImage(fileName): loadFromDisk is run as part of construction. */
    method Load(fileName: string, fileSize: int) returns (image: RealImage)
      modifies this
      ensures fresh(image) && image.fileName == fileName && image.fileSize == fileSize
      ensures loads == old(loads) + [fileName]
    {
      image := new RealImage(fileName, fileSize);
      loads := loads + [fileName];
    }
  }

  /** The virtual proxy: no image until the first display. */
  class ImageProxy {
    const fileName: string
    const disk: Disk
    var realImage: RealImage?

    ghost predicate Valid()
      reads this
    {
      realImage != null ==> realImage.fileName == fileName
    }

    constructor (fileName: string, disk: Disk)
      ensures this.fileName == fileName && this.disk == disk && realImage == null && Valid()
    {
      this.fileName := fileName;
      this.disk := disk;
      realImage := null;
    }

    /** display: loads the image the first time only; later calls reuse it. */
    method Display(fileSize: int)
      requires Valid()
      modifies this, disk
      ensures Valid() && realImage != null
      ensures old(realImage) == null ==>
        fresh(realImage) && realImage.fileSize == fileSize && disk.loads == old(disk.loads) + [fileName]
      ensures old(realImage) != null ==> realImage == old(realImage) && disk.loads == old(disk.loads)
    {
      if realImage == null {
        realImage := disk.Load(fileName, fileSize);
      }
    }

    /** getInfo: never loads; says "not loaded" until the first display. */
    method GetInfo() returns (info: string)
      ensures realImage == null ==> info == "Image proxy: " + fileName + " (not loaded)"
      ensures realImage != null ==> info == realImage.Info()
    {
      if realImage == null {
        return "Image proxy: " + fileName + " (not loaded)";
      }
      info := realImage.Info();
    }
  }

  /**
   * The caching proxies' static map. `loaded` lists the file names this cache
   * has loaded; Valid says it holds each cached name exactly once and nothing
   * else, so no file is loaded twice through the cache.
   */
  class ImageCache {
    const disk: Disk
    var images: map<string, RealImage>
    ghost var loaded: seq<string>

    ghost predicate Valid()
      reads this, images.Values
    {
      && multiset(loaded) == multiset(images.Keys)
      && forall f :: f in images ==> images[f].fileName == f
    }

    constructor (disk: Disk)
      ensures this.disk == disk && images == map[] && loaded == [] && Valid()
    {
      this.disk := disk;
      images := map[];
      loaded := [];
    }
  }

  /** Each file is loaded through the cache at most once. */
  lemma LoadedAtMostOnce(cache: ImageCache, f: string)
    requires cache.Valid()
    ensures multiset(cache.loaded)[f] <= 1
    ensures multiset(cache.loaded)[f] == 1 <==> f in cache.images
  {
    assert multiset(cache.loaded)[f] == multiset(cache.images.Keys)[f];
  }

  class CachingImageProxy {
    const fileName: string
    const cache: ImageCache

    constructor (fileName: string, cache: ImageCache)
      ensures this.fileName == fileName && this.cache == cache
    {
      this.fileName := fileName;
      this.cache := cache;
    }

    /** display: a cache hit reuses the image; a miss loads it and caches it. */
    method Display(fileSize: int)
      requires cache.Valid()
      modifies cache, cache.disk
      ensures cache.Valid() && fileName in cache.images
      ensures fileName in old(cache.images) ==>
        cache.images == old(cache.images) && cache.loaded == old(cache.loaded) && cache.disk.loads == old(cache.disk.loads)
      ensures fileName !in old(cache.images) ==>
        && fresh(cache.images[fileName]) && cache.images[fileName].fileSize == fileSize
        && cache.images == old(cache.images)[fileName := cache.images[fileName]]
        && cache.loaded == old(cache.loaded) + [fileName]
        && cache.disk.loads == old(cache.disk.loads) + [fileName]
    {
      if fileName !in cache.images {
        var image := cache.disk.Load(fileName, fileSize);
        cache.images := cache.images[fileName := image];
        cache.loaded := cache.loaded + [fileName];
      }
    }

    /** getInfo: never loads; says "not in cache" for a name not cached. */
    method GetInfo() returns (info: string)
      ensures fileName !in cache.images ==> info == "Cached image proxy: " + fileName + " (not in cache)"
      ensures fileName in cache.images ==> info == cache.images[fileName].Info() + " (cached)"
    {
      if fileName !in cache.images {
        return "Cached image proxy: " + fileName + " (not in cache)";
      }
      info := cache.images[fileName].Info() + " (cached)";
    }
  }

  /** hasAccess: exactly the roles "admin" and "user". */
  predicate HasAccess(userRole: string) {
    userRole == "admin" || userRole == "user"
  }

  /** The protection proxy: refuses other roles, and loads lazily for permitted ones. */
  class ProtectedImageProxy {
    const fileName: string
    const userRole: string
    const disk: Disk
    var realImage: RealImage?

    ghost predicate Valid()
      reads this
    {
      realImage != null ==> realImage.fileName == fileName && HasAccess(userRole)
    }

    constructor (fileName: string, userRole: string, disk: Disk)
      ensures this.fileName == fileName && this.userRole == userRole && this.disk == disk
      ensures realImage == null && Valid()
    {
      this.fileName := fileName;
      this.userRole := userRole;
      this.disk := disk;
      realImage := null;
    }

    /** The image a permitted call ends up with: the one already loaded, or a new one. */
    twostate predicate LoadedLazily(fileSize: int)
      reads this, disk
    {
      && realImage != null
      && (old(realImage) == null ==>
            fresh(realImage) && realImage.fileSize == fileSize && disk.loads == old(disk.loads) + [fileName])
      && (old(realImage) != null ==> realImage == old(realImage) && disk.loads == old(disk.loads))
    }

    /** display: a refused role changes nothing and loads nothing. */
    method Display(fileSize: int)
      requires Valid()
      modifies this, disk
      ensures Valid()
      ensures !HasAccess(userRole) ==> realImage == old(realImage) && disk.loads == old(disk.loads)
      ensures HasAccess(userRole) ==> LoadedLazily(fileSize)
    {
      if !HasAccess(userRole) {
        return;
      }
      if realImage == null {
        realImage := disk.Load(fileName, fileSize);
      }
    }

    /** getInfo: a refused role is told so and nothing loads; a permitted one loads on the first call. */
    method GetInfo(fileSize: int) returns (info: string)
      requires Valid()
      modifies this, disk
      ensures Valid()
      ensures !HasAccess(userRole) ==>
        && info == "Protected image: " + fileName + " (access denied)"
        && realImage == old(realImage) && disk.loads == old(disk.loads)
      ensures HasAccess(userRole) ==> LoadedLazily(fileSize) && info == realImage.Info()
    {
      if !HasAccess(userRole) {
        return "Protected image: " + fileName + " (access denied)";
      }
      if realImage == null {
        realImage := disk.Load(fileName, fileSize);
      }
      info := realImage.Info();
    }
  }

  /** The demonstration's roles: the admin is let through, the guest is not. */
  lemma DemoRoles()
    ensures HasAccess("admin") && !HasAccess("guest")
  {
    assert "guest"[0] != "admin"[0] && "guest"[0] != "user"[0];
  }

  /**
   * The demonstration's virtual proxy: "not loaded", then one load on display.
   * The size is the random one the image gets when it loads.
   */
  method VirtualProxyScenario(disk: Disk, fileSize: int) returns (before: string, after: string)
    modifies disk
    ensures before == "Image proxy: " + "photo1.jpg" + " (not loaded)"
    ensures after == "Image: " + "photo1.jpg" + " (" + Strings.IntToString(fileSize) + " bytes)"
    ensures disk.loads == old(disk.loads) + ["photo1.jpg"]
  {
    var image1 := new ImageProxy("photo1.jpg", disk);
    before := image1.GetInfo();
    image1.Display(fileSize);
    after := image1.GetInfo();
  }

  /** The demonstration's caching proxy: two displays, one load. */
  method CachingProxyScenario(disk: Disk, fileSize: int)
    modifies disk
    ensures disk.loads == old(disk.loads) + ["photo2.jpg"]
  {
    var cache := new ImageCache(disk);
    var image2 := new CachingImageProxy("photo2.jpg", cache);
    image2.Display(fileSize);
    image2.Display(fileSize);
  }

  /** The demonstration's protection proxies: the admin loads once, the guest is refused. */
  method ProtectionProxyScenario(disk: Disk, fileSize: int) returns (adminInfo: string, guestInfo: string)
    modifies disk
    ensures disk.loads == old(disk.loads) + ["secret.jpg"]
    ensures adminInfo == "Image: " + "secret.jpg" + " (" + Strings.IntToString(fileSize) + " bytes)"
    ensures guestInfo == "Protected image: " + "secret.jpg" + " (access denied)"
  {
    var adminImage := new ProtectedImageProxy("secret.jpg", "admin", disk);
    var guestImage := new ProtectedImageProxy("secret.jpg", "guest", disk);
    DemoRoles();
    adminImage.Display(fileSize);
    guestImage.Display(fileSize);
    adminInfo := adminImage.GetInfo(fileSize);
    guestInfo := guestImage.GetInfo(fileSize);
  }

  /** The whole demonstration: three loads in all, one per file, whatever the random sizes. */
  method ProxyScenario(size1: int, size2: int, size3: int) returns (loads: seq<string>)
    ensures loads == ["photo1.jpg", "photo2.jpg", "secret.jpg"]
  {
    var disk := new Disk();
    var before, after := VirtualProxyScenario(disk, size1);
    CachingProxyScenario(disk, size2);
    var adminInfo, guestInfo := ProtectionProxyScenario(disk, size3);
    loads := disk.loads;
  }
}
